/** The script's steps chained in the order it runs them (expense_app.py:126-271, 305-338,
    447-456): the past table first, then the current upload, the null check, the cleaning,
    the selection and the figures shown. */
module Dashboard {
  import opened Wrappers
  import opened Grouping
  import opened Frames
  import opened Validation
  import opened Normalize
  import opened Aggregate
  import opened Rankings

  /** The cleaned current table and the cleaned past rows. */
  datatype Tables = Tables(current: Table, past: seq<PastExpense>)

  /** Everything computed from the filtered rows. */
  datatype View = View(
    filtered: Table,
    metrics: Metrics,
    satisfaction: SatSummary,
    regrets: seq<Expense>,
    worthy: seq<Expense>,
    breakdown: seq<Entry<string>>,
    trend: Option<seq<Entry<YearMonth>>>)

  /** Lines 126-198. A failure in the past table stops the script before the current upload is looked at. */
  function Load(current: seq<Upload>, past: seq<Upload>): (r: Result<Tables, Failure>)
    ensures PastTable(LoadPast(past)).Err? ==> r == Err(PastTable(LoadPast(past)).error)
    ensures PastTable(LoadPast(past)).Ok? && current == [] ==> r == Err(NoCurrentUpload)
    ensures r.Ok? ==> LoadCurrent(current).Ok? && Validate(LoadCurrent(current).value).Ok?
    ensures r.Ok? ==> Convertible(LoadCurrent(current).value)
    ensures r.Ok? ==> DateSorted(r.value.current.rows)
    ensures r.Ok? ==> r.value.past == PastTable(LoadPast(past)).value
    ensures r.Ok? <==> PastTable(LoadPast(past)).Ok? && LoadCurrent(current).Ok?
                       && Validate(LoadCurrent(current).value).Ok? && Convertible(LoadCurrent(current).value)
    ensures r.Ok? ==> r.value.current == NormalizeCurrent(LoadCurrent(current).value).value
  {
    match PastTable(LoadPast(past))
    case Err(e) => Err(e)
    case Ok(p) =>
      match LoadCurrent(current)
      case Err(e) => Err(e)
      case Ok(f) =>
        match Validate(f)
        case Err(e) => Err(e)
        case Ok(g) =>
          match NormalizeCurrent(g)
          case Err(e) => Err(e)
          case Ok(t) => Ok(Tables(t, p))
  }

  /** Lines 239-271, 305-338 and 447-456 for one sidebar state. */
  function Run(tables: Tables, sel: Selection, budget: nat): (r: Result<View, Failure>)
    ensures r.Ok? <==> sel.months != [] && sel.categories != []
    ensures r.Ok? ==> Select(tables.current, sel) == Ok(r.value.filtered)
    ensures r.Ok? ==> forall i :: 0 <= i < |r.value.filtered.rows| ==> Selected(r.value.filtered.rows[i], sel)
    ensures r.Ok? ==> r.value.metrics.total == Sum(r.value.filtered.rows)
    ensures r.Ok? ==> (r.value.trend.Some? <==> r.value.filtered.rows != [])
    ensures r.Ok? ==> |r.value.regrets| <= 3 && |r.value.worthy| <= 3
    ensures r.Ok? ==> r.value.metrics == Summarize(r.value.filtered, sel, budget)
    ensures r.Ok? ==> r.value.satisfaction == SatisfactionSummary(r.value.filtered)
    ensures r.Ok? ==> r.value.regrets == Regrets(r.value.filtered) && r.value.worthy == Worthy(r.value.filtered)
    ensures r.Ok? ==> r.value.breakdown == (if r.value.filtered.rows == [] then [] else CategoryRanking(r.value.filtered.rows))
    ensures r.Ok? ==> r.value.trend == MonthlyTrend(r.value.filtered.rows, tables.past, sel.categories)
  {
    match Select(tables.current, sel)
    case Err(e) => Err(e)
    case Ok(t) =>
      Ok(View(
        t,
        Summarize(t, sel, budget),
        SatisfactionSummary(t),
        Regrets(t),
        Worthy(t),
        if t.rows == [] then [] else CategoryRanking(t.rows),
        MonthlyTrend(t.rows, tables.past, sel.categories)))
  }

  /** With the sidebar left at "all months" and "all categories", the figures cover every
      cleaned row, so the total shown is the sum of the whole current table. */
  lemma {:induction false} DefaultViewCoversAll(tables: Tables, sel: Selection, budget: nat)
    requires tables.current.rows != [] && sel == DefaultSelection(tables.current.rows)
    ensures Run(tables, sel, budget).Ok?
    ensures Run(tables, sel, budget).value.filtered == tables.current
  {
    DefaultSelectionKeepsAll(tables.current);
  }

  /** Loading neither drops nor adds a row: the cleaned current table has one record per
      data row of the readable current files. */
  lemma {:induction false} LoadKeepsEveryRow(current: seq<Upload>, past: seq<Upload>)
    requires Load(current, past).Ok?
    ensures |Load(current, past).value.current.rows| == RowCount(Readable(current))
  {
    var f := LoadCurrent(current).value;
    var t := Load(current, past).value.current;
    assert t == NormalizeCurrent(f).value;
    assert |multiset(t.rows)| == |multiset(Records(f).value)|;
    assert |Records(f).value| == |f.rows|;
  }

  /** The figures of one view agree: the category breakdown adds up to the total shown, and
      the trend adds up to that total plus the selected past rows. */
  lemma {:induction false} RunFiguresAgree(tables: Tables, sel: Selection, budget: nat)
    requires Run(tables, sel, budget).Ok?
    ensures Total(Run(tables, sel, budget).value.breakdown) == Run(tables, sel, budget).value.metrics.total
    ensures Run(tables, sel, budget).value.trend.Some? ==>
              Total(Run(tables, sel, budget).value.trend.value)
              == Run(tables, sel, budget).value.metrics.total + Total(PastEntries(tables.past, sel.categories))
  {
    var v := Run(tables, sel, budget).value;
    var rows := v.filtered.rows;
    assert v.metrics.total == Sum(rows);
    if rows != [] {
      assert Total(CategoryRanking(rows)) == Sum(rows);
    } else {
      assert v.breakdown == [];
    }
  }
}
