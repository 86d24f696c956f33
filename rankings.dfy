/** Grouped and ranked views of the filtered rows: the satisfaction summary and the
    regret/value lists (expense_app.py:305-332), the category breakdown
    (expense_app.py:334-338, 430) and the merged monthly trend (expense_app.py:447-456). */
module Rankings {
  import opened Wrappers
  import opened Sorting
  import opened Grouping
  import opened Frames
  import opened Normalize
  import opened Aggregate
  import Strings

  // ---------------------------------------------------------------- satisfaction summary

  predicate HasScore(e: Expense) {
    e.satisfaction.Some?
  }

  function Score(e: Expense): int {
    e.satisfaction.GetOr(0)
  }

  /** `dropna(subset=['satisfaction'])`, when the column exists. */
  function Scored(t: Table): (r: seq<Expense>)
    ensures forall i :: 0 <= i < |r| ==> HasScore(r[i])
    ensures !t.hasSatisfaction ==> r == []
  {
    if t.hasSatisfaction then Where(t.rows, HasScore) else []
  }

  /** One vote per scored row, keyed by its score. */
  function Tally(rows: seq<Expense>): (es: seq<Entry<int>>)
    ensures |es| == |rows|
    ensures forall i :: 0 <= i < |rows| ==> es[i] == Entry(Score(rows[i]), 1)
  {
    seq(|rows|, i requires 0 <= i < |rows| => Entry(Score(rows[i]), 1))
  }

  function ScoreTotal(rows: seq<Expense>): int {
    if rows == [] then 0 else ScoreTotal(rows[..|rows| - 1]) + Score(rows[|rows| - 1])
  }

  function ScoreOrder(e: Entry<int>): int {
    e.key
  }

  /** `value_counts().sort_index()`: how many rows carry each score, in ascending score order. */
  function ScoreCounts(rows: seq<Expense>): (counts: seq<Entry<int>>)
    ensures IsGrouping(counts, Tally(rows))
    ensures forall i, j :: 0 <= i < j < |counts| ==> counts[i].key < counts[j].key
    ensures Total(counts) == |rows|
  {
    var gs := Grouped(Tally(rows));
    var counts := SortBy(gs, ScoreOrder);
    GroupingPermutation(gs, counts, Tally(rows));
    SortedDistinctKeys(counts, ScoreOrder);
    TallyTotal(rows);
    counts
  }

  lemma {:induction false} TallyTotal(rows: seq<Expense>)
    ensures Total(Tally(rows)) == |rows|
  {
    if rows != [] {
      var init := rows[..|rows| - 1];
      TallyTotal(init);
      assert Tally(rows)[..|init|] == Tally(init);
    }
  }

  /** `['satisfaction'].mean()`. */
  function Mean(rows: seq<Expense>): (m: real)
    requires rows != []
    ensures m * (|rows| as real) == ScoreTotal(rows) as real
  {
    (ScoreTotal(rows) as real) / (|rows| as real)
  }

  lemma {:induction false} ScoreTotalBounds(rows: seq<Expense>, lo: int, hi: int)
    requires forall i :: 0 <= i < |rows| ==> lo <= Score(rows[i]) <= hi
    ensures (lo as real) * (|rows| as real) <= ScoreTotal(rows) as real <= (hi as real) * (|rows| as real)
  {
    if rows != [] {
      var init := rows[..|rows| - 1];
      var last := rows[|rows| - 1];
      assert forall i :: 0 <= i < |init| ==> init[i] == rows[i];
      ScoreTotalBounds(init, lo, hi);
      assert ScoreTotal(rows) == ScoreTotal(init) + Score(last);
      assert lo <= Score(last) <= hi;
      var k := |init| as real;
      assert |rows| as real == k + 1.0;
      assert (lo as real) * (k + 1.0) == (lo as real) * k + lo as real;
      assert (hi as real) * (k + 1.0) == (hi as real) * k + hi as real;
    }
  }

  /** The mean score lies between the lowest and the highest score present. */
  lemma {:induction false} MeanWithinScale(rows: seq<Expense>, lo: int, hi: int)
    requires rows != []
    requires forall i :: 0 <= i < |rows| ==> lo <= Score(rows[i]) <= hi
    ensures lo as real <= Mean(rows) <= hi as real
  {
    var n := |rows| as real;
    var m := Mean(rows);
    var total := ScoreTotal(rows) as real;
    assert m * n == total;
    ScoreTotalBounds(rows, lo, hi);
    assert (lo as real) * n <= m * n;
    CancelPositive(lo as real, m, n);
    assert m * n <= (hi as real) * n;
    CancelPositive(m, hi as real, n);
  }

  /** The satisfaction line of the prompt and the report: "no data", or the mean score
      and the count of rows per score. */
  datatype SatSummary = NoSatisfactionData | SatStats(mean: real, counts: seq<Entry<int>>)

  /** Lines 305-312. */
  function SatisfactionSummary(t: Table): (s: SatSummary)
    ensures s.SatStats? <==> Scored(t) != []
    ensures s.SatStats? ==> s.mean == Mean(Scored(t)) && s.counts == ScoreCounts(Scored(t))
  {
    var rows := Scored(t);
    if rows == [] then NoSatisfactionData else SatStats(Mean(rows), ScoreCounts(rows))
  }

  /** There is a summary exactly when the column exists and some filtered row has a score. */
  lemma {:induction false} SummaryPresent(t: Table)
    ensures SatisfactionSummary(t).SatStats? <==> t.hasSatisfaction && exists i :: 0 <= i < |t.rows| && HasScore(t.rows[i])
  {
    if t.hasSatisfaction {
      WhereCounts(t.rows, HasScore);
      if exists i :: 0 <= i < |t.rows| && HasScore(t.rows[i]) {
        var i :| 0 <= i < |t.rows| && HasScore(t.rows[i]);
        assert t.rows[i] in multiset(t.rows);
        assert t.rows[i] in multiset(Scored(t));
      }
    }
  }

  // ---------------------------------------------------------------- regret and value lists

  /** A filled-in score of at most 2. */
  predicate IsRegret(e: Expense) {
    e.satisfaction.Some? && e.satisfaction.value <= 2
  }

  /** A filled-in score of at least 4. */
  predicate IsWorthy(e: Expense) {
    e.satisfaction.Some? && e.satisfaction.value >= 4
  }

  /** `rows[p].sort_values(by='amount', ascending=False).head(3)`, when the column exists. */
  function LargestThree(t: Table, p: Expense -> bool): (r: seq<Expense>)
    ensures |r| <= 3
    ensures t.hasSatisfaction ==> |r| == Min(3, |Where(t.rows, p)|)
    ensures !t.hasSatisfaction ==> r == []
    ensures forall i :: 0 <= i < |r| ==> p(r[i])
    ensures forall i, j :: 0 <= i < j < |r| ==> r[i].amount >= r[j].amount
  {
    if !t.hasSatisfaction then []
    else
      var candidates := Where(t.rows, p);
      var r := FirstBy(candidates, 3, NegAmount);
      forall i, j | 0 <= i < j < |r| ensures r[i].amount >= r[j].amount {
        assert NegAmount(r[i]) <= NegAmount(r[j]);
      }
      forall i | 0 <= i < |r| ensures p(r[i]) {
        assert r[i] in multiset(candidates);
      }
      r
  }

  /** The list is taken from the rows, and no qualifying row left off it has a larger amount
      than a row on it. */
  lemma {:induction false} LargestThreeTop(t: Table, p: Expense -> bool)
    ensures multiset(LargestThree(t, p)) <= multiset(t.rows)
    ensures forall x, y :: x in multiset(t.rows) - multiset(LargestThree(t, p)) && p(x) && y in LargestThree(t, p) ==> x.amount <= y.amount
  {
    var r := LargestThree(t, p);
    if t.hasSatisfaction {
      var candidates := Where(t.rows, p);
      assert r == FirstBy(candidates, 3, NegAmount);
      FirstByOmitted(candidates, 3, NegAmount);
      WhereCounts(t.rows, p);
      assert multiset(candidates) <= multiset(t.rows);
      forall x, y | x in multiset(t.rows) - multiset(r) && p(x) && y in r ensures x.amount <= y.amount {
        assert x in multiset(candidates) - multiset(r);
        assert NegAmount(y) <= NegAmount(x);
      }
    }
  }

  /** The regret list (line 320): at most three rows, each scored 1-2, largest amounts first. */
  function Regrets(t: Table): (r: seq<Expense>)
    ensures |r| <= 3
    ensures forall i :: 0 <= i < |r| ==> r[i].satisfaction.Some? && r[i].satisfaction.value <= 2
    ensures forall i, j :: 0 <= i < j < |r| ==> r[i].amount >= r[j].amount
  {
    LargestThree(t, IsRegret)
  }

  /** The value list (line 327): at most three rows, each scored 4 or more, largest amounts first. */
  function Worthy(t: Table): (r: seq<Expense>)
    ensures |r| <= 3
    ensures forall i :: 0 <= i < |r| ==> r[i].satisfaction.Some? && r[i].satisfaction.value >= 4
    ensures forall i, j :: 0 <= i < j < |r| ==> r[i].amount >= r[j].amount
  {
    LargestThree(t, IsWorthy)
  }

  /** A regret list comes from the filtered rows, leaves out no larger regretted row, and is
      empty only when no row was scored 1-2. */
  lemma {:induction false} RegretsAreLargest(t: Table)
    ensures multiset(Regrets(t)) <= multiset(t.rows)
    ensures forall x, y :: x in multiset(t.rows) - multiset(Regrets(t)) && IsRegret(x) && y in Regrets(t) ==> x.amount <= y.amount
    ensures t.hasSatisfaction && (exists i :: 0 <= i < |t.rows| && IsRegret(t.rows[i])) ==> Regrets(t) != []
  {
    LargestThreeTop(t, IsRegret);
    NonEmptyWhenQualifying(t, IsRegret);
  }

  /** The same for the value list and rows scored 4 or more. */
  lemma {:induction false} WorthyAreLargest(t: Table)
    ensures multiset(Worthy(t)) <= multiset(t.rows)
    ensures forall x, y :: x in multiset(t.rows) - multiset(Worthy(t)) && IsWorthy(x) && y in Worthy(t) ==> x.amount <= y.amount
    ensures t.hasSatisfaction && (exists i :: 0 <= i < |t.rows| && IsWorthy(t.rows[i])) ==> Worthy(t) != []
  {
    LargestThreeTop(t, IsWorthy);
    NonEmptyWhenQualifying(t, IsWorthy);
  }

  lemma {:induction false} NonEmptyWhenQualifying(t: Table, p: Expense -> bool)
    ensures t.hasSatisfaction && (exists i :: 0 <= i < |t.rows| && p(t.rows[i])) ==> LargestThree(t, p) != []
  {
    if t.hasSatisfaction && exists i :: 0 <= i < |t.rows| && p(t.rows[i]) {
      var i :| 0 <= i < |t.rows| && p(t.rows[i]);
      WhereCounts(t.rows, p);
      assert t.rows[i] in multiset(t.rows);
      assert t.rows[i] in multiset(Where(t.rows, p));
    }
  }

  /** One bullet of the regret/value text: date, category, description, amount and score. */
  datatype ItemLine = ItemLine(month: Month, day: Day, category: string, description: Option<string>, amount: int, score: int)

  /** The text stays "없음" when no row qualifies; otherwise it is the list of bullets. */
  datatype Listing = NoItems | Items(lines: seq<ItemLine>)

  function LineOf(e: Expense): ItemLine
    requires e.satisfaction.Some?
  {
    ItemLine(e.date.month, e.date.day, e.category, e.description, e.amount, e.satisfaction.value)
  }

  /** The `for _, row in ...iterrows()` loops of lines 322-325 and 329-332. */
  method DescribeItems(items: seq<Expense>) returns (text: Listing)
    requires forall i :: 0 <= i < |items| ==> items[i].satisfaction.Some?
    ensures items == [] <==> text == NoItems
    ensures text.Items? ==> |text.lines| == |items| && forall i :: 0 <= i < |items| ==> text.lines[i] == LineOf(items[i])
  {
    if items == [] {
      return NoItems;
    }
    var lines: seq<ItemLine> := [];
    var i := 0;
    while i < |items|
      invariant 0 <= i <= |items|
      invariant |lines| == i
      invariant forall k :: 0 <= k < i ==> lines[k] == LineOf(items[k])
    {
      lines := lines + [LineOf(items[i])];
      i := i + 1;
    }
    text := Items(lines);
  }

  // ---------------------------------------------------------------- category breakdown

  function NegTotal(e: Entry<string>): int {
    -e.amount
  }

  /** `groupby('category')['amount'].sum().reset_index().sort_values(by='amount', ascending=False)`
      (lines 336, 430): one entry per category, largest total first. */
  function CategoryRanking(rows: seq<Expense>): (r: seq<Entry<string>>)
    ensures IsGrouping(r, EntriesBy(rows, Category))
    ensures forall i, j :: 0 <= i < j < |r| ==> r[i].amount >= r[j].amount
    ensures Total(r) == Sum(rows)
  {
    var es := EntriesBy(rows, Category);
    var gs := Grouped(es);
    var r := SortBy(gs, NegTotal);
    GroupingPermutation(gs, r, es);
    EntriesTotal(rows, Category);
    forall i, j | 0 <= i < j < |r| ensures r[i].amount >= r[j].amount {
      assert NegTotal(r[i]) <= NegTotal(r[j]);
    }
    r
  }

  /** Each category of the ranking carries the sum of that category's amounts, and the
      first one is a top category. */
  lemma {:induction false} RankingSums(rows: seq<Expense>)
    ensures forall j :: 0 <= j < |CategoryRanking(rows)| ==>
              CategoryRanking(rows)[j].amount == CategorySum(rows, CategoryRanking(rows)[j].key)
    ensures rows != [] ==> |CategoryRanking(rows)| > 0
    ensures rows != [] ==> forall i :: 0 <= i < |rows| ==> CategorySum(rows, rows[i].category) <= CategoryRanking(rows)[0].amount
  {
    var r := CategoryRanking(rows);
    var es := EntriesBy(rows, Category);
    if rows != [] {
      assert HasKey(r, es[0].key);
      forall i | 0 <= i < |rows| ensures CategorySum(rows, rows[i].category) <= r[0].amount {
        assert HasKey(r, es[i].key);
        var j :| 0 <= j < |r| && r[j].key == es[i].key;
        if j > 0 {
          assert r[0].amount >= r[j].amount;
        }
      }
    }
  }

  /** One line of the breakdown text (line 338): the category and its amount. The thousands
      separators of `:,` are not written. */
  function BreakdownLine(e: Entry<string>): string {
    "- " + e.key + ": " + Strings.ShowInt(e.amount) + "원\n"
  }

  /** The breakdown text: the lines of the entries, in order. */
  function BreakdownText(ranking: seq<Entry<string>>): (text: string)
    ensures ranking == [] <==> text == []
  {
    if ranking == [] then []
    else
      var line := BreakdownLine(ranking[|ranking| - 1]);
      assert line[0] == '-';
      BreakdownText(ranking[..|ranking| - 1]) + line
  }

  /** The `for _, row in sum_category.iterrows()` loop of lines 335-338: no text for no rows,
      otherwise one line per ranked category, in ranking order. */
  method CategoryBreakdown(rows: seq<Expense>) returns (text: string)
    ensures rows == [] ==> text == []
    ensures rows != [] ==> text == BreakdownText(CategoryRanking(rows))
    ensures rows != [] ==> text != []
  {
    text := [];
    if rows == [] {
      return;
    }
    text := WriteEntries(CategoryRanking(rows));
  }

  /** Appends one line per entry, in the ranking's order (`category_breakdown_str +=`). */
  method WriteEntries(ranking: seq<Entry<string>>) returns (text: string)
    ensures text == BreakdownText(ranking)
  {
    text := [];
    var i := 0;
    while i < |ranking|
      invariant 0 <= i <= |ranking|
      invariant text == BreakdownText(ranking[..i])
    {
      var prefix := ranking[..i + 1];
      assert prefix[..i] == ranking[..i] && prefix[i] == ranking[i];
      assert BreakdownText(prefix) == BreakdownText(ranking[..i]) + BreakdownLine(ranking[i]);
      text := text + BreakdownLine(ranking[i]);
      i := i + 1;
    }
    assert ranking[..i] == ranking;
  }

  // ---------------------------------------------------------------- monthly trend

  /** A past row enters the trend when its date parsed and its category is selected. */
  predicate PastCounts(p: PastExpense, categories: seq<string>) {
    p.date.Some? && (categories == [] || (p.category.Some? && p.category.value in categories))
  }

  function PastEntry(p: PastExpense): Entry<YearMonth>
    requires p.date.Some?
  {
    Entry(MonthOf(p.date.value), p.amount)
  }

  ghost predicate FromPast(e: Entry<YearMonth>, past: seq<PastExpense>, categories: seq<string>) {
    exists i :: 0 <= i < |past| && PastCounts(past[i], categories) && PastEntry(past[i]) == e
  }

  /** `df_past[df_past['category'].isin(selected_categories)]` (lines 449-452), keeping only
      rows whose date parsed, since the grouping by month drops NaT months. */
  function PastSelected(past: seq<PastExpense>, categories: seq<string>): (r: seq<PastExpense>)
    ensures forall i :: 0 <= i < |r| ==> PastCounts(r[i], categories)
    ensures |r| <= |past|
  {
    if past == [] then []
    else
      var p := past[|past| - 1];
      PastSelected(past[..|past| - 1], categories) + (if PastCounts(p, categories) then [p] else [])
  }

  /** The selection keeps every copy of each qualifying past row and no other row. */
  lemma {:induction false} PastSelectedCounts(past: seq<PastExpense>, categories: seq<string>)
    ensures forall x :: multiset(PastSelected(past, categories))[x] == if PastCounts(x, categories) then multiset(past)[x] else 0
  {
    if past != [] {
      var init := past[..|past| - 1];
      assert past == init + [past[|past| - 1]];
      PastSelectedCounts(init, categories);
    }
  }

  /** The past rows' `[year_month, amount]` that reach the grouped sum: one entry per
      selected past row, in order. */
  function PastEntries(past: seq<PastExpense>, categories: seq<string>): (es: seq<Entry<YearMonth>>)
    ensures |es| == |PastSelected(past, categories)|
    ensures forall k :: 0 <= k < |es| ==> es[k] == PastEntry(PastSelected(past, categories)[k])
    ensures forall k :: 0 <= k < |es| ==> FromPast(es[k], past, categories)
  {
    if past == [] then []
    else
      var init := past[..|past| - 1];
      var p := past[|past| - 1];
      var es := PastEntries(init, categories);
      forall k | 0 <= k < |es| ensures FromPast(es[k], past, categories) {
        var i :| 0 <= i < |init| && PastCounts(init[i], categories) && PastEntry(init[i]) == es[k];
        assert past[i] == init[i];
      }
      if PastCounts(p, categories) then
        assert FromPast(PastEntry(p), past, categories) by {
          assert past[|past| - 1] == p;
        }
        es + [PastEntry(p)]
      else es
  }

  lemma {:induction false} PastEntriesInclude(past: seq<PastExpense>, categories: seq<string>, i: nat)
    requires i < |past| && PastCounts(past[i], categories)
    ensures PastEntry(past[i]) in PastEntries(past, categories)
  {
    var init := past[..|past| - 1];
    if i < |past| - 1 {
      assert init[i] == past[i];
      PastEntriesInclude(init, categories, i);
    }
  }

  function TrendOrder(e: Entry<YearMonth>): int {
    MonthKey(e.key)
  }

  /** Lines 447-456: the filtered rows and the selected past rows, summed per month, in
      month order; nothing is drawn when no filtered row is left. */
  function MonthlyTrend(filtered: seq<Expense>, past: seq<PastExpense>, categories: seq<string>): (r: Option<seq<Entry<YearMonth>>>)
    ensures r.None? <==> filtered == []
    ensures r.Some? ==> IsGrouping(r.value, EntriesBy(filtered, YearMonthOf) + PastEntries(past, categories))
    ensures r.Some? ==> forall i, j :: 0 <= i < j < |r.value| ==> MonthKey(r.value[i].key) < MonthKey(r.value[j].key)
    ensures r.Some? ==> Total(r.value) == Sum(filtered) + Total(PastEntries(past, categories))
  {
    if filtered == [] then None
    else
      var es := EntriesBy(filtered, YearMonthOf) + PastEntries(past, categories);
      var gs := Grouped(es);
      var sorted := SortBy(gs, TrendOrder);
      GroupingPermutation(gs, sorted, es);
      forall i, j | 0 <= i < j < |sorted| ensures MonthKey(sorted[i].key) < MonthKey(sorted[j].key) {
        assert TrendOrder(sorted[i]) <= TrendOrder(sorted[j]);
        if MonthKey(sorted[i].key) == MonthKey(sorted[j].key) {
          MonthKeyInjective(sorted[i].key, sorted[j].key);
        }
      }
      TotalConcat(EntriesBy(filtered, YearMonthOf), PastEntries(past, categories));
      EntriesTotal(filtered, YearMonthOf);
      Some(sorted)
  }

  /** The line chart needs two months (line 458); a selected past row from another month than
      a current row is enough for it. */
  lemma {:induction false} PastMonthShowsTrend(filtered: seq<Expense>, past: seq<PastExpense>, categories: seq<string>, i: nat, k: nat)
    requires k < |filtered| && i < |past| && PastCounts(past[i], categories)
    requires MonthOf(past[i].date.value) != MonthOf(filtered[k].date)
    ensures MonthlyTrend(filtered, past, categories).Some?
    ensures |MonthlyTrend(filtered, past, categories).value| >= 2
  {
    var es := EntriesBy(filtered, YearMonthOf) + PastEntries(past, categories);
    var x, y := TwoMonthsAmong(filtered, past, categories, i, k);
    var r := MonthlyTrend(filtered, past, categories).value;
    TwoKeysTwoGroups(r, es, x, y);
  }

  /** The current row and the past row give two trend entries with different months. */
  lemma {:induction false} TwoMonthsAmong(filtered: seq<Expense>, past: seq<PastExpense>, categories: seq<string>, i: nat, k: nat)
    returns (x: nat, y: nat)
    requires k < |filtered| && i < |past| && PastCounts(past[i], categories)
    requires MonthOf(past[i].date.value) != MonthOf(filtered[k].date)
    ensures x < |EntriesBy(filtered, YearMonthOf) + PastEntries(past, categories)|
    ensures y < |EntriesBy(filtered, YearMonthOf) + PastEntries(past, categories)|
    ensures (EntriesBy(filtered, YearMonthOf) + PastEntries(past, categories))[x].key
         != (EntriesBy(filtered, YearMonthOf) + PastEntries(past, categories))[y].key
  {
    var cur := EntriesBy(filtered, YearMonthOf);
    var prior := PastEntries(past, categories);
    PastEntriesInclude(past, categories, i);
    var m :| 0 <= m < |prior| && prior[m] == PastEntry(past[i]);
    x, y := k, |cur| + m;
    assert (cur + prior)[x] == cur[k];
    assert (cur + prior)[y] == prior[m];
  }
}
