/** The month/category filter (expense_app.py:216-249) and the headline metrics
    computed over the filtered rows (expense_app.py:254-271). */
module Aggregate {
  import opened Wrappers
  import opened Sorting
  import opened Grouping
  import opened Frames
  import opened Normalize

  /** The months and categories ticked in the sidebar. */
  datatype Selection = Selection(months: seq<YearMonth>, categories: seq<string>)

  function Category(e: Expense): string {
    e.category
  }

  function YearMonthOf(e: Expense): YearMonth {
    MonthOf(e.date)
  }

  /** Ascending order of this key is descending order of amount. */
  function NegAmount(e: Expense): int {
    -e.amount
  }

  /** `['amount'].sum()`. */
  function Sum(rows: seq<Expense>): int {
    if rows == [] then 0 else Sum(rows[..|rows| - 1]) + rows[|rows| - 1].amount
  }

  /** Boolean-mask row selection `df[mask]`: the rows satisfying `p`, in their order. */
  function Where(rows: seq<Expense>, p: Expense -> bool): (r: seq<Expense>)
    ensures forall i :: 0 <= i < |r| ==> p(r[i])
    ensures |r| <= |rows|
  {
    if rows == [] then []
    else Where(rows[..|rows| - 1], p) + (if p(rows[|rows| - 1]) then [rows[|rows| - 1]] else [])
  }

  /** `Where` keeps every copy of a row satisfying `p` and nothing else. */
  lemma {:induction false} WhereCounts(rows: seq<Expense>, p: Expense -> bool)
    ensures forall x :: multiset(Where(rows, p))[x] == if p(x) then multiset(rows)[x] else 0
  {
    if rows != [] {
      var init := rows[..|rows| - 1];
      var last := rows[|rows| - 1];
      assert rows == init + [last];
      WhereCounts(init, p);
    }
  }

  lemma {:induction false} WhereAll(rows: seq<Expense>, p: Expense -> bool)
    requires forall i :: 0 <= i < |rows| ==> p(rows[i])
    ensures Where(rows, p) == rows
  {
    if rows != [] {
      WhereAll(rows[..|rows| - 1], p);
    }
  }

  lemma {:induction false} SumAppend(rows: seq<Expense>, x: Expense)
    ensures Sum(rows + [x]) == Sum(rows) + x.amount
  {
    assert (rows + [x])[..|rows|] == rows;
  }

  /** The rows with keyed amounts, as `groupby(key)['amount']` sees them. */
  function EntriesBy<K>(rows: seq<Expense>, key: Expense -> K): (es: seq<Entry<K>>)
    ensures |es| == |rows|
    ensures forall i :: 0 <= i < |rows| ==> es[i] == Entry(key(rows[i]), rows[i].amount)
  {
    seq(|rows|, i requires 0 <= i < |rows| => Entry(key(rows[i]), rows[i].amount))
  }

  lemma {:induction false} EntriesTotal<K>(rows: seq<Expense>, key: Expense -> K)
    ensures Total(EntriesBy(rows, key)) == Sum(rows)
  {
    if rows != [] {
      var init := rows[..|rows| - 1];
      EntriesTotal(init, key);
      assert EntriesBy(rows, key)[..|init|] == EntriesBy(init, key);
    }
  }

  // ---------------------------------------------------------------- filter

  predicate Selected(e: Expense, sel: Selection) {
    MonthOf(e.date) in sel.months && e.category in sel.categories
  }

  /** `df[year_month.isin(months) & category.isin(categories)]` (lines 239-243): a boolean mask. */
  function Filter(rows: seq<Expense>, sel: Selection): (r: seq<Expense>)
    ensures forall i :: 0 <= i < |r| ==> Selected(r[i], sel)
    ensures |r| <= |rows|
  {
    Where(rows, e => Selected(e, sel))
  }

  /** The filter keeps exactly the selected rows, each as often as it occurs, and adds none. */
  lemma {:induction false} FilterExactly(rows: seq<Expense>, sel: Selection)
    ensures forall x :: multiset(Filter(rows, sel))[x] == if Selected(x, sel) then multiset(rows)[x] else 0
    ensures multiset(Filter(rows, sel)) <= multiset(rows)
  {
    WhereCounts(rows, e => Selected(e, sel));
  }

  lemma {:induction false} FilterKeepsSelected(rows: seq<Expense>, sel: Selection)
    requires forall i :: 0 <= i < |rows| ==> Selected(rows[i], sel)
    ensures Filter(rows, sel) == rows
  {
    WhereAll(rows, e => Selected(e, sel));
  }

  /** Lines 239-249: an empty month selection stops first, then an empty category selection. */
  function Select(t: Table, sel: Selection): (r: Result<Table, Failure>)
    ensures r.Ok? <==> sel.months != [] && sel.categories != []
    ensures sel.months == [] ==> r == Err(NoMonthSelected)
    ensures sel.months != [] && sel.categories == [] ==> r == Err(NoCategorySelected)
    ensures r.Ok? ==> r.value.rows == Filter(t.rows, sel)
    ensures r.Ok? ==> r.value.hasEssential == t.hasEssential && r.value.hasSatisfaction == t.hasSatisfaction
  {
    if sel.months != [] && sel.categories != [] then Ok(Table(Filter(t.rows, sel), t.hasEssential, t.hasSatisfaction))
    else if sel.months == [] then Err(NoMonthSelected)
    else Err(NoCategorySelected)
  }

  lemma {:induction false} MonthKeyInjective(a: YearMonth, b: YearMonth)
    requires MonthKey(a) == MonthKey(b)
    ensures a == b
  {
  }

  lemma {:induction false} SameMembers<T>(a: seq<T>, b: seq<T>)
    requires multiset(a) == multiset(b)
    ensures forall x :: x in a <==> x in b
  {
    forall x ensures x in a <==> x in b {
      assert x in a <==> x in multiset(a);
      assert x in b <==> x in multiset(b);
    }
  }

  /** The distinct keys of the rows are exactly the keys some row has. */
  lemma {:induction false} KeysObserved<K>(rows: seq<Expense>, key: Expense -> K)
    ensures forall i :: 0 <= i < |rows| ==> key(rows[i]) in KeysOf(EntriesBy(rows, key))
    ensures forall k :: k in KeysOf(EntriesBy(rows, key)) ==> exists i :: 0 <= i < |rows| && key(rows[i]) == k
  {
    var es := EntriesBy(rows, key);
    var ks := KeysOf(es);
    forall i | 0 <= i < |rows| ensures key(rows[i]) in ks {
      assert es[i].key in ks;
    }
    forall k | k in ks ensures exists i :: 0 <= i < |rows| && key(rows[i]) == k {
      var j :| 0 <= j < |ks| && ks[j] == k;
      assert HasKey(es, ks[j]);
      var i :| 0 <= i < |es| && es[i].key == k;
      assert key(rows[i]) == k;
    }
  }

  /** Months without repetition, sorted by calendar key, are in strictly increasing order. */
  lemma {:induction false} StrictMonths(ms: seq<YearMonth>)
    requires Distinct(ms) && SortedBy(ms, MonthKey)
    ensures forall i, j :: 0 <= i < j < |ms| ==> MonthKey(ms[i]) < MonthKey(ms[j])
  {
    forall i, j | 0 <= i < j < |ms| ensures MonthKey(ms[i]) < MonthKey(ms[j]) {
      assert MonthKey(ms[i]) <= MonthKey(ms[j]);
      if MonthKey(ms[i]) == MonthKey(ms[j]) {
        MonthKeyInjective(ms[i], ms[j]);
      }
    }
  }

  /** `sorted(df['year_month'].unique())` (line 217): the months present, each once, in calendar order. */
  function ObservedMonths(rows: seq<Expense>): (ms: seq<YearMonth>)
    ensures forall i :: 0 <= i < |rows| ==> MonthOf(rows[i].date) in ms
    ensures forall m :: m in ms ==> exists i :: 0 <= i < |rows| && MonthOf(rows[i].date) == m
    ensures forall i, j :: 0 <= i < j < |ms| ==> MonthKey(ms[i]) < MonthKey(ms[j])
  {
    var es := EntriesBy(rows, YearMonthOf);
    var ks := KeysOf(es);
    var ms := SortBy(ks, MonthKey);
    SameMembers(ks, ms);
    DistinctPermutation(ks, ms);
    StrictMonths(ms);
    KeysObserved(rows, YearMonthOf);
    ms
  }

  /** `df['category'].unique()` (line 228): the categories present, each once. The
      alphabetical order of the sidebar checkboxes is display only and not modelled. */
  function ObservedCategories(rows: seq<Expense>): (cs: seq<string>)
    ensures Distinct(cs)
    ensures forall i :: 0 <= i < |rows| ==> rows[i].category in cs
    ensures forall c :: c in cs ==> exists i :: 0 <= i < |rows| && rows[i].category == c
  {
    KeysObserved(rows, Category);
    KeysOf(EntriesBy(rows, Category))
  }

  /** The sidebar's default: "all months" and "all categories" ticked (lines 220-221, 232-233). */
  function DefaultSelection(rows: seq<Expense>): (sel: Selection)
    ensures forall i :: 0 <= i < |rows| ==> Selected(rows[i], sel)
    ensures rows != [] <==> sel.months != [] && sel.categories != []
  {
    var ms := ObservedMonths(rows);
    var cs := ObservedCategories(rows);
    if rows == [] then
      Selection(ms, cs)
    else
      assert MonthOf(rows[0].date) in ms && rows[0].category in cs;
      Selection(ms, cs)
  }

  /** With the default selection the filter keeps every row. */
  lemma {:induction false} DefaultSelectionKeepsAll(t: Table)
    requires t.rows != []
    ensures Select(t, DefaultSelection(t.rows)) == Ok(t)
  {
    FilterKeepsSelected(t.rows, DefaultSelection(t.rows));
  }

  /** A table without rows has no months to tick, so the script stops at the month warning. */
  lemma {:induction false} EmptyTableStops(t: Table)
    requires t.rows == []
    ensures Select(t, DefaultSelection(t.rows)) == Err(NoMonthSelected)
  {
  }

  // ---------------------------------------------------------------- averages

  /** `sum_amount / num_months if num_months > 0 else 0` (line 256). */
  function MonthlyAverage(total: int, monthCount: nat): (r: real)
    ensures monthCount > 0 ==> r * (monthCount as real) == total as real
    ensures monthCount == 0 ==> r == 0.0
  {
    if monthCount > 0 then (total as real) / (monthCount as real) else 0.0
  }

  /** `int(x)` of a quotient: division truncated toward zero. */
  function TruncDiv(a: int, n: int): (q: int)
    requires n > 0
    ensures a >= 0 ==> q * n <= a < (q + 1) * n
    ensures a < 0 ==> (q - 1) * n < a <= q * n
  {
    if a >= 0 then a / n else -((-a) / n)
  }

  /** `int(df_filtered['amount'].mean())`, or 0 for no rows (line 257). */
  function RowAverage(rows: seq<Expense>): (r: int)
    ensures rows == [] ==> r == 0
    ensures rows != [] && Sum(rows) >= 0 ==> r * |rows| <= Sum(rows) < (r + 1) * |rows|
    ensures rows != [] && Sum(rows) < 0 ==> (r - 1) * |rows| < Sum(rows) <= r * |rows|
  {
    if rows == [] then 0 else TruncDiv(Sum(rows), |rows|)
  }

  // ---------------------------------------------------------------- essential split

  predicate IsEssential(e: Expense) {
    e.essential == Some(true)
  }

  predicate IsWaste(e: Expense) {
    e.essential == Some(false)
  }

  predicate IsFlagged(e: Expense) {
    e.essential.Some?
  }

  /** The essential and non-essential amounts and their percentages of the total. */
  datatype Split = Split(essential: int, waste: int, essentialRate: real, wasteRate: real)

  lemma CancelPositive(a: real, b: real, n: real)
    requires n > 0.0 && a * n <= b * n
    ensures a <= b
  {
  }

  /** A rate r with r * total == part * 100 is a percentage when the part lies between 0 and the positive total. */
  lemma RateBounded(r: real, part: real, total: real)
    requires total > 0.0 && r * total == part * 100.0
    ensures 0.0 <= part <= total ==> 0.0 <= r <= 100.0
  {
    if 0.0 <= part <= total {
      CancelPositive(0.0, r, total);
      CancelPositive(r, 100.0, total);
    }
  }

  /** The non-essential share of the total in percent, and 0 when the total is not positive (line 262). */
  function WasteRate(waste: int, total: int): (r: real)
    ensures total <= 0 ==> r == 0.0
    ensures total > 0 ==> r * (total as real) == (waste as real) * 100.0
    ensures total > 0 && 0 <= waste <= total ==> 0.0 <= r <= 100.0
  {
    if total > 0 then
      var r := (waste as real) / (total as real) * 100.0;
      assert r * (total as real) == (waste as real) * 100.0;
      RateBounded(r, waste as real, total as real);
      r
    else
      0.0
  }

  /** Lines 259-268. */
  function EssentialSplit(t: Table): (s: Split)
    ensures !t.hasEssential ==> s == Split(Sum(t.rows), 0, 100.0, 0.0)
    ensures t.hasEssential ==> s.essential == Sum(Where(t.rows, IsEssential)) && s.waste == Sum(Where(t.rows, IsWaste))
    ensures t.hasEssential ==> s.wasteRate == WasteRate(s.waste, Sum(t.rows))
    ensures s.essentialRate + s.wasteRate == 100.0
  {
    if t.hasEssential then
      var total := Sum(t.rows);
      var waste := Sum(Where(t.rows, IsWaste));
      var essential := Sum(Where(t.rows, IsEssential));
      var wasteRate := WasteRate(waste, total);
      Split(essential, waste, 100.0 - wasteRate, wasteRate)
    else
      Split(Sum(t.rows), 0, 100.0, 0.0)
  }

  lemma {:induction false} SumWhereStep(rows: seq<Expense>, p: Expense -> bool)
    requires rows != []
    ensures Sum(Where(rows, p)) == Sum(Where(rows[..|rows| - 1], p)) + (if p(rows[|rows| - 1]) then rows[|rows| - 1].amount else 0)
  {
    var init := rows[..|rows| - 1];
    var last := rows[|rows| - 1];
    if p(last) {
      SumAppend(Where(init, p), last);
    } else {
      assert Where(rows, p) == Where(init, p) + [];
      assert Where(init, p) + [] == Where(init, p);
    }
  }

  lemma {:induction false} FlaggedSplits(rows: seq<Expense>)
    ensures Sum(Where(rows, IsEssential)) + Sum(Where(rows, IsWaste)) == Sum(Where(rows, IsFlagged))
  {
    if rows != [] {
      var last := rows[|rows| - 1];
      FlaggedSplits(rows[..|rows| - 1]);
      SumWhereStep(rows, IsEssential);
      SumWhereStep(rows, IsWaste);
      SumWhereStep(rows, IsFlagged);
      var share := if IsFlagged(last) then last.amount else 0;
      assert (if IsEssential(last) then last.amount else 0) + (if IsWaste(last) then last.amount else 0) == share by {
        match last.essential
        case None =>
        case Some(b) => if b { assert IsEssential(last); } else { assert IsWaste(last); }
      }
    }
  }

  /** The essential and non-essential amounts together are the total of the rows flagged either way;
      when every row is flagged, they are the whole total. */
  lemma {:induction false} SplitCoversFlagged(t: Table)
    requires t.hasEssential
    ensures EssentialSplit(t).essential + EssentialSplit(t).waste == Sum(Where(t.rows, IsFlagged))
    ensures (forall i :: 0 <= i < |t.rows| ==> IsFlagged(t.rows[i])) ==>
              EssentialSplit(t).essential + EssentialSplit(t).waste == Sum(t.rows)
  {
    FlaggedSplits(t.rows);
    if forall i :: 0 <= i < |t.rows| ==> IsFlagged(t.rows[i]) {
      WhereAll(t.rows, IsFlagged);
    }
  }

  predicate NonNegative(rows: seq<Expense>) {
    forall i :: 0 <= i < |rows| ==> rows[i].amount >= 0
  }

  lemma {:induction false} WhereSumBounded(rows: seq<Expense>, p: Expense -> bool)
    requires NonNegative(rows)
    ensures 0 <= Sum(Where(rows, p)) <= Sum(rows)
  {
    if rows != [] {
      WhereSumBounded(rows[..|rows| - 1], p);
      SumWhereStep(rows, p);
    }
  }

  /** With non-negative amounts both rates are percentages. */
  lemma {:induction false} RatesArePercentages(t: Table)
    requires NonNegative(t.rows)
    ensures 0.0 <= EssentialSplit(t).wasteRate <= 100.0
    ensures 0.0 <= EssentialSplit(t).essentialRate <= 100.0
  {
    if t.hasEssential {
      WhereSumBounded(t.rows, IsWaste);
    }
  }

  // ---------------------------------------------------------------- top category, budget

  function CategorySum(rows: seq<Expense>, c: string): int {
    SumFor(EntriesBy(rows, Category), c)
  }

  /** `groupby('category')['amount'].sum().idxmax()`, or "-" for no rows (line 270).
      Which of several equal maxima is named is not fixed. */
  function TopCategory(rows: seq<Expense>): (r: string)
    ensures rows == [] ==> r == "-"
    ensures rows != [] ==> exists i :: 0 <= i < |rows| && rows[i].category == r
    ensures rows != [] ==> forall i :: 0 <= i < |rows| ==> CategorySum(rows, rows[i].category) <= CategorySum(rows, r)
  {
    if rows == [] then "-"
    else
      var es := EntriesBy(rows, Category);
      var gs := Grouped(es);
      assert HasKey(gs, es[0].key);
      var m := MaxEntry(gs);
      forall i | 0 <= i < |rows| ensures CategorySum(rows, rows[i].category) <= CategorySum(rows, m.key) {
        assert HasKey(gs, es[i].key);
        var j :| 0 <= j < |gs| && gs[j].key == es[i].key;
      }
      assert HasKey(es, m.key);
      m.key
  }

  /** `"여유" if diff >= 0 else "초과(적자)"` (lines 24, 303). */
  function Status(diff: int): (s: string)
    ensures s == "여유" <==> diff >= 0
    ensures s == "여유" || s == "초과(적자)"
  {
    if diff >= 0 then "여유" else "초과(적자)"
  }

  /** The headline numbers of lines 254-271. */
  datatype Metrics = Metrics(
    total: int,
    monthlyAverage: real,
    rowAverage: int,
    split: Split,
    topCategory: string,
    budgetDiff: int)

  /** Lines 254-271: every figure is computed from the filtered rows and the budget. */
  function Summarize(t: Table, sel: Selection, budget: nat): (m: Metrics)
    ensures m.total == Sum(t.rows)
    ensures m.budgetDiff == budget - Sum(t.rows)
    ensures m.monthlyAverage == MonthlyAverage(Sum(t.rows), |sel.months|)
    ensures m.rowAverage == RowAverage(t.rows)
    ensures m.split == EssentialSplit(t)
    ensures m.topCategory == TopCategory(t.rows)
    ensures m.budgetDiff + m.total == budget
    ensures Status(m.budgetDiff) == "여유" <==> Sum(t.rows) <= budget
    ensures m.split.essentialRate + m.split.wasteRate == 100.0
  {
    var total := Sum(t.rows);
    Metrics(
      total,
      MonthlyAverage(total, |sel.months|),
      RowAverage(t.rows),
      EssentialSplit(t),
      TopCategory(t.rows),
      budget - total)
  }

  /** The headline figures agree with one another: with non-negative amounts both rates are
      percentages, and with every row flagged the essential and non-essential amounts make up
      the total. */
  lemma {:induction false} SummaryConsistent(t: Table, sel: Selection, budget: nat)
    requires NonNegative(t.rows)
    ensures 0.0 <= Summarize(t, sel, budget).split.wasteRate <= 100.0
    ensures 0.0 <= Summarize(t, sel, budget).split.essentialRate <= 100.0
    ensures t.hasEssential && (forall i :: 0 <= i < |t.rows| ==> IsFlagged(t.rows[i])) ==>
              Summarize(t, sel, budget).split.essential + Summarize(t, sel, budget).split.waste == Summarize(t, sel, budget).total
  {
    var m := Summarize(t, sel, budget);
    assert m.split == EssentialSplit(t) && m.total == Sum(t.rows);
    RatesArePercentages(t);
    if t.hasEssential {
      SplitCoversFlagged(t);
    }
  }
}
