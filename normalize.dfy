/** Cleaning of the merged tables: the current-period table (expense_app.py:186-198)
    and the looser past table (expense_app.py:142-148). */
module Normalize {
  import opened Wrappers
  import opened Frames
  import opened Sorting
  import Strings

  /** One cleaned current-period expense. `year_month` is MonthOf(date). */
  datatype Expense = Expense(
    date: Date,
    amount: int,
    category: string,
    description: Option<string>,
    essential: Option<bool>,
    satisfaction: Option<int>)

  /** The cleaned current table with the flags saying which optional columns exist. */
  datatype Table = Table(rows: seq<Expense>, hasEssential: bool, hasSatisfaction: bool)

  /** One cleaned past expense; a date the parser rejected is None (`errors='coerce'`). */
  datatype PastExpense = PastExpense(date: Option<Date>, amount: int, category: Option<string>)

  // ---------------------------------------------------------------- dates

  /** `dt.strftime('%Y-%m')`. */
  function MonthOf(d: Date): YearMonth {
    YearMonth(d.year, d.month)
  }

  /** Chronological order of dates. */
  predicate NotLater(a: Date, b: Date) {
    a.year < b.year || (a.year == b.year && (a.month < b.month || (a.month == b.month && a.day <= b.day)))
  }

  /** A day count that grows with the date; sorting by it sorts by date. */
  function DateKey(d: Date): int {
    d.year * 372 + (d.month - 1) * 31 + (d.day - 1)
  }

  lemma DateKeyOrder(a: Date, b: Date)
    ensures DateKey(a) <= DateKey(b) <==> NotLater(a, b)
  {
    if a.year < b.year {
      assert a.year * 372 + 372 <= b.year * 372;
    } else if a.year > b.year {
      assert b.year * 372 + 372 <= a.year * 372;
    }
  }

  /** The order of 'YYYY-MM' strings (for four-digit years). */
  function MonthKey(m: YearMonth): int {
    m.year * 12 + (m.month - 1)
  }

  // ---------------------------------------------------------------- cells

  function Column(f: Frame, c: string): (cells: seq<Cell>)
    ensures |cells| == |f.rows|
    ensures forall i :: 0 <= i < |f.rows| ==> cells[i] == Get(f.rows[i], c)
  {
    seq(|f.rows|, i requires 0 <= i < |f.rows| => Get(f.rows[i], c))
  }

  /** Whether pandas stores the column as text ('object' dtype): some cell is a string. */
  predicate TextColumn(cells: seq<Cell>) {
    exists i :: 0 <= i < |cells| && cells[i].Text?
  }

  /** `pd.to_datetime(..., errors='coerce')` on one cell: a parsed date, or NaT. */
  function DateOf(cell: Cell): (r: Option<Date>)
    ensures r.Some? <==> cell.Stamp?
    ensures r.Some? ==> cell == Stamp(r.value)
  {
    if cell.Stamp? then Some(cell.d) else None
  }

  /** One amount cell after lines 145-147 / 190-192. In a text column every string is
      cleaned of ',' and '원' and converted; a non-string cell of a text column is
      NaN after `.str.replace`. In a numeric column the number is kept. */
  function AmountOf(cell: Cell, textual: bool): (r: Option<int>)
    ensures textual ==> (r.Some? <==> cell.Text? && Strings.IsIntegerText(Strings.CleanAmountText(cell.s)))
    ensures !textual ==> (r.Some? <==> cell.Num?)
    ensures !textual && cell.Num? ==> r == Some(cell.n)
  {
    if textual then
      if cell.Text? then Strings.ParseInt(Strings.CleanAmountText(cell.s)) else None
    else if cell.Num? then Some(cell.n)
    else None
  }

  /** `df['category'].str.strip()` on the current table; a non-string category stops the script. */
  function CategoryOf(cell: Cell): (r: Option<string>)
    ensures r.Some? <==> cell.Text?
    ensures r.Some? ==> r.value == [] || (!Strings.IsSpace(r.value[0]) && !Strings.IsSpace(r.value[|r.value| - 1]))
    ensures r.Some? ==> exists front, back :: cell.s == front + r.value + back && Strings.AllSpace(front) && Strings.AllSpace(back)
  {
    if cell.Text? then Some(Strings.Trim(cell.s)) else None
  }

  /** `df['description'].fillna('-').str.strip()`: NaN becomes "-"; a non-string value becomes NaN. */
  function DescriptionOf(cell: Cell): (r: Option<string>)
    ensures r.Some? <==> cell.Null? || cell.Text?
    ensures cell.Null? ==> r == Some("-")
    ensures cell.Text? ==> r == Some(Strings.Trim(cell.s))
  {
    match cell
    case Null => Some("-")
    case Text(s) => Some(Strings.Trim(s))
    case _ => None
  }

  /** `.str` works on the filled description column only if it holds strings. */
  predicate DescriptionColumnOk(cells: seq<Cell>) {
    |cells| == 0 || exists i :: 0 <= i < |cells| && (cells[i].Null? || cells[i].Text?)
  }

  /** The `essential` value as `== True` / `== False` sees it after the map of line 198. */
  function EssentialOf(cell: Cell): (r: Option<bool>)
    ensures r == Some(true) <==> cell == Flag(true) || cell == Text("True") || cell == Num(1)
    ensures r == Some(false) <==> cell == Flag(false) || cell == Text("False") || cell == Num(0)
  {
    match cell
    case Flag(b) => Some(b)
    case Text(s) => if s == "True" then Some(true) else if s == "False" then Some(false) else None
    case Num(n) => if n == 1 then Some(true) else if n == 0 then Some(false) else None
    case _ => None
  }

  /** A satisfaction score; NaN stays missing. */
  function ScoreOf(cell: Cell): (r: Option<int>)
    ensures r.Some? <==> cell.Num?
    ensures r.Some? ==> cell == Num(r.value)
  {
    if cell.Num? then Some(cell.n) else None
  }

  // ---------------------------------------------------------------- current table

  predicate AllDates(f: Frame) {
    forall i :: 0 <= i < |f.rows| ==> Get(f.rows[i], "date").Stamp?
  }

  predicate AllAmounts(f: Frame) {
    forall i :: 0 <= i < |f.rows| ==> AmountOf(Get(f.rows[i], "amount"), TextColumn(Column(f, "amount"))).Some?
  }

  predicate AllCategories(f: Frame) {
    forall i :: 0 <= i < |f.rows| ==> Get(f.rows[i], "category").Text?
  }

  /** The cleaning succeeds on this table: the required columns exist and every value converts. */
  predicate Convertible(f: Frame) {
    && "date" in f.columns && AllDates(f)
    && "amount" in f.columns && AllAmounts(f)
    && "category" in f.columns && AllCategories(f)
    && "description" in f.columns && DescriptionColumnOk(Column(f, "description"))
  }

  /** The cleaned record `e` is row `row` of table `f`, column by column. */
  ghost predicate CleanedFrom(e: Expense, f: Frame, row: Row) {
    && Get(row, "date") == Stamp(e.date)
    && AmountOf(Get(row, "amount"), TextColumn(Column(f, "amount"))) == Some(e.amount)
    && Get(row, "category").Text? && e.category == Strings.Trim(Get(row, "category").s)
    && e.description == DescriptionOf(Get(row, "description"))
    && e.essential == (if "essential" in f.columns then EssentialOf(Get(row, "essential")) else None)
    && e.satisfaction == (if "satisfaction" in f.columns then ScoreOf(Get(row, "satisfaction")) else None)
  }

  /** One row of the current table after lines 186-198, when its date, amount and category convert. */
  function CleanRow(f: Frame, row: Row): (r: Option<Expense>)
    ensures r.Some? <==> Get(row, "date").Stamp? && Get(row, "category").Text?
                         && AmountOf(Get(row, "amount"), TextColumn(Column(f, "amount"))).Some?
    ensures r.Some? ==> CleanedFrom(r.value, f, row)
  {
    var date := Get(row, "date");
    var amount := AmountOf(Get(row, "amount"), TextColumn(Column(f, "amount")));
    var category := Get(row, "category");
    if date.Stamp? && amount.Some? && category.Text? then
      Some(Expense(
        date.d,
        amount.value,
        Strings.Trim(category.s),
        DescriptionOf(Get(row, "description")),
        if "essential" in f.columns then EssentialOf(Get(row, "essential")) else None,
        if "satisfaction" in f.columns then ScoreOf(Get(row, "satisfaction")) else None))
    else None
  }

  /** Lines 186-198 row by row, before the sort; the first failing step, in code order, stops the script. */
  function Records(f: Frame): (r: Result<seq<Expense>, Failure>)
    ensures r.Ok? <==> Convertible(f)
    ensures r.Ok? ==> |r.value| == |f.rows| && forall i :: 0 <= i < |f.rows| ==> CleanedFrom(r.value[i], f, f.rows[i])
    ensures "date" !in f.columns ==> r == Err(MissingColumn("date"))
    ensures r.Err? && r.error.MissingColumn? ==> r.error.name !in f.columns
  {
    if "date" !in f.columns then Err(MissingColumn("date"))
    else if !AllDates(f) then Err(UnparsedDate)
    else if "amount" !in f.columns then Err(MissingColumn("amount"))
    else if !AllAmounts(f) then Err(UnparsedAmount)
    else if "category" !in f.columns then Err(MissingColumn("category"))
    else if !AllCategories(f) then Err(CategoryNotText)
    else if "description" !in f.columns then Err(MissingColumn("description"))
    else if !DescriptionColumnOk(Column(f, "description")) then Err(DescriptionNotText)
    else
      Ok(seq(|f.rows|, i requires 0 <= i < |f.rows| && AllDates(f) && AllAmounts(f) && AllCategories(f) =>
        CleanRow(f, f.rows[i]).value))
  }

  ghost predicate DateSorted(rows: seq<Expense>) {
    forall i, j :: 0 <= i < j < |rows| ==> NotLater(rows[i].date, rows[j].date)
  }

  function ByDate(e: Expense): int {
    DateKey(e.date)
  }

  /** The cleaned current table (lines 186-198), sorted by date (line 188). */
  function NormalizeCurrent(f: Frame): (r: Result<Table, Failure>)
    ensures r.Ok? <==> Convertible(f)
    ensures r.Ok? ==> multiset(r.value.rows) == multiset(Records(f).value)
    ensures r.Ok? ==> DateSorted(r.value.rows)
    ensures r.Ok? ==> r.value.hasEssential == ("essential" in f.columns)
    ensures r.Ok? ==> r.value.hasSatisfaction == ("satisfaction" in f.columns)
    ensures r.Err? ==> r.error == Records(f).error
  {
    match Records(f)
    case Err(e) => Err(e)
    case Ok(rs) =>
      var sorted := SortBy(rs, ByDate);
      assert DateSorted(sorted) by {
        forall i, j | 0 <= i < j < |sorted| ensures NotLater(sorted[i].date, sorted[j].date) {
          assert ByDate(sorted[i]) <= ByDate(sorted[j]);
          DateKeyOrder(sorted[i].date, sorted[j].date);
        }
      }
      Ok(Table(sorted, "essential" in f.columns, "satisfaction" in f.columns))
  }

  /** A text amount such as "10,000원" is cleaned to its digits before conversion. */
  lemma {:induction false} SeparatedAmountCleaned(f: Frame, i: nat, a: string, b: string)
    requires Convertible(f) && i < |f.rows|
    requires Strings.AllDigits(a) && Strings.AllDigits(b) && |a + b| > 0
    requires Get(f.rows[i], "amount") == Text(a + "," + b + "원")
    ensures Records(f).value[i].amount == Strings.DigitsValue(a + b)
  {
    Strings.CleanSeparatedAmount(a, b);
    assert TextColumn(Column(f, "amount")) by {
      assert Column(f, "amount")[i].Text?;
    }
    assert CleanedFrom(Records(f).value[i], f, f.rows[i]);
  }

  /** In the current table a text amount that is not an integer after cleaning stops the script. */
  lemma {:induction false} UnparsedAmountRejected(f: Frame, i: nat)
    requires i < |f.rows| && "date" in f.columns && "amount" in f.columns && AllDates(f)
    requires Get(f.rows[i], "amount").Text?
    requires !Strings.IsIntegerText(Strings.CleanAmountText(Get(f.rows[i], "amount").s))
    ensures NormalizeCurrent(f) == Err(UnparsedAmount)
  {
    assert !AllAmounts(f);
  }

  /** The category is stripped of surrounding whitespace (line 194). */
  lemma {:induction false} CategoryTrimmed(f: Frame, i: nat)
    requires Convertible(f) && i < |f.rows|
    ensures Get(f.rows[i], "category").Text?
    ensures Records(f).value[i].category == Strings.Trim(Get(f.rows[i], "category").s)
    ensures Records(f).value[i].category == []
         || (!Strings.IsSpace(Records(f).value[i].category[0])
             && !Strings.IsSpace(Records(f).value[i].category[|Records(f).value[i].category| - 1]))
  {
    var e := Records(f).value[i];
    assert CleanedFrom(e, f, f.rows[i]);
    assert e.category == Strings.Trim(Get(f.rows[i], "category").s);
  }

  /** A missing description becomes "-" (line 195). */
  lemma {:induction false} DescriptionFilled(f: Frame, i: nat)
    requires Convertible(f) && i < |f.rows|
    ensures Get(f.rows[i], "description").Null? ==> Records(f).value[i].description == Some("-")
  {
    var e := Records(f).value[i];
    assert CleanedFrom(e, f, f.rows[i]);
    assert e.description == DescriptionOf(Get(f.rows[i], "description"));
  }

  /** The strings "True"/"False" in `essential` become booleans (line 198); without the column
      there is no flag. */
  lemma {:induction false} FlagConverted(f: Frame, i: nat)
    requires Convertible(f) && i < |f.rows|
    ensures "essential" in f.columns && Get(f.rows[i], "essential") == Text("True") ==> Records(f).value[i].essential == Some(true)
    ensures "essential" in f.columns && Get(f.rows[i], "essential") == Text("False") ==> Records(f).value[i].essential == Some(false)
    ensures "essential" !in f.columns ==> Records(f).value[i].essential.None?
  {
    var e := Records(f).value[i];
    assert CleanedFrom(e, f, f.rows[i]);
    FlagOfCell("essential" in f.columns, Get(f.rows[i], "essential"), e.essential);
  }

  lemma FlagOfCell(present: bool, cell: Cell, flag: Option<bool>)
    requires flag == (if present then EssentialOf(cell) else None)
    ensures present && cell == Text("True") ==> flag == Some(true)
    ensures present && cell == Text("False") ==> flag == Some(false)
    ensures !present ==> flag.None?
  {
  }

  // ---------------------------------------------------------------- past table

  /** `.str.strip()` needs a text column; an empty column is text as read. */
  predicate CategoryColumnOk(cells: seq<Cell>) {
    |cells| == 0 || TextColumn(cells)
  }

  /** One past row (lines 142-148): unparsed dates become None, unconvertible amounts 0. */
  function PastRow(f: Frame, row: Row): (p: PastExpense)
    ensures p.date.Some? <==> Get(row, "date").Stamp?
    ensures p.date.Some? ==> Get(row, "date") == Stamp(p.date.value)
    ensures AmountOf(Get(row, "amount"), TextColumn(Column(f, "amount"))).None? ==> p.amount == 0
    ensures AmountOf(Get(row, "amount"), TextColumn(Column(f, "amount"))).Some? ==> p.amount == AmountOf(Get(row, "amount"), TextColumn(Column(f, "amount"))).value
    ensures Get(row, "category").Text? ==> p.category == Some(Strings.Trim(Get(row, "category").s))
    ensures !Get(row, "category").Text? ==> p.category.None?
  {
    PastExpense(
      DateOf(Get(row, "date")),
      AmountOf(Get(row, "amount"), TextColumn(Column(f, "amount"))).GetOr(0),
      CategoryOf(Get(row, "category")))
  }

  /** The cleaned past table. It fails only on a missing column or a non-text category
      column, never on a value. Its rows are not sorted. */
  function NormalizePast(f: Frame): (r: Result<seq<PastExpense>, Failure>)
    ensures r.Ok? <==> "date" in f.columns && "amount" in f.columns && "category" in f.columns && CategoryColumnOk(Column(f, "category"))
    ensures r.Ok? ==> |r.value| == |f.rows| && forall i :: 0 <= i < |f.rows| ==> r.value[i] == PastRow(f, f.rows[i])
  {
    if "date" !in f.columns then Err(MissingColumn("date"))
    else if "amount" !in f.columns then Err(MissingColumn("amount"))
    else if "category" !in f.columns then Err(MissingColumn("category"))
    else if !CategoryColumnOk(Column(f, "category")) then Err(CategoryNotText)
    else Ok(seq(|f.rows|, i requires 0 <= i < |f.rows| => PastRow(f, f.rows[i])))
  }

  /** The optional past data: no readable file gives no past rows. */
  function PastTable(past: Option<Frame>): Result<seq<PastExpense>, Failure> {
    match past
    case None => Ok([])
    case Some(f) => NormalizePast(f)
  }

  /** Where the current table stops the script on an amount, the past table uses 0 instead. */
  lemma {:induction false} PastUnparsedAmountIsZero(f: Frame, i: nat)
    requires NormalizePast(f).Ok? && i < |f.rows|
    requires Get(f.rows[i], "amount").Text?
    requires !Strings.IsIntegerText(Strings.CleanAmountText(Get(f.rows[i], "amount").s))
    ensures NormalizePast(f).value[i].amount == 0
  {
    assert TextColumn(Column(f, "amount")) by {
      assert Column(f, "amount")[i].Text?;
    }
  }

  /** A text amount such as "10,000원" in the past table is cleaned to its digits too (lines 145-147). */
  lemma {:induction false} PastSeparatedAmountCleaned(f: Frame, i: nat, a: string, b: string)
    requires NormalizePast(f).Ok? && i < |f.rows|
    requires Strings.AllDigits(a) && Strings.AllDigits(b) && |a + b| > 0
    requires Get(f.rows[i], "amount") == Text(a + "," + b + "원")
    ensures NormalizePast(f).value[i].amount == Strings.DigitsValue(a + b)
  {
    Strings.CleanSeparatedAmount(a, b);
    assert TextColumn(Column(f, "amount")) by {
      assert Column(f, "amount")[i].Text?;
    }
    assert NormalizePast(f).value[i] == PastRow(f, f.rows[i]);
  }

  /** Amount conversion inverts decimal writing: a text cell holding the decimal text of an
      integer, with or without the won sign, converts back to that integer. */
  lemma {:induction false} AmountOfShownInt(n: int)
    ensures AmountOf(Text(Strings.ShowInt(n)), true) == Some(n)
    ensures n >= 0 ==> AmountOf(Text(Strings.ShowInt(n) + "원"), true) == Some(n)
  {
    var t := Strings.ShowInt(n);
    Strings.DigitsLackSymbols(Strings.ShowNat(if n < 0 then -n else n));
    assert ',' !in t && '원' !in t by {
      if n < 0 {
        assert t == "-" + Strings.ShowNat(-n);
      }
    }
    Strings.ParseShowInt(n);
    if n >= 0 {
      Strings.CleanWonAmount(t);
      Strings.ShowNatValue(n);
    }
  }
}
