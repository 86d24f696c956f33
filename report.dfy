/** `generate_monthly_report` (expense_app.py:20-77): the values and rows of the
    downloadable monthly report. The Markdown layout and number formatting are not modelled. */
module Report {
  import opened Wrappers
  import opened Sorting
  import opened Grouping
  import opened Frames
  import opened Normalize
  import opened Aggregate
  import opened Rankings

  /** One row of the category table: category, amount and percentage of the total. */
  datatype ShareLine = ShareLine(category: string, amount: int, percent: real)

  /** One row of the top-5 table; `score` is absent when the column or the value is. */
  datatype TopLine = TopLine(date: Date, category: string, description: string, amount: int, score: Option<int>)

  datatype MonthlyReport = MonthlyReport(
    budget: int,
    total: int,
    gap: int,
    status: string,
    essential: int,
    waste: int,
    essentialRate: real,
    wasteRate: real,
    satisfaction: SatSummary,
    categories: seq<ShareLine>,
    top: seq<TopLine>,
    insights: Option<string>)

  /** `(amount / total * 100) if total > 0 else 0` (line 55). */
  function Share(amount: int, total: int): (p: real)
    ensures total > 0 ==> p * (total as real) == (amount as real) * 100.0
    ensures total <= 0 ==> p == 0.0
  {
    if total > 0 then (amount as real) / (total as real) * 100.0 else 0.0
  }

  /** The category table of lines 51-56 for a ranking: each entry with its share of the sum
      of all entries. */
  function Shares(ranking: seq<Entry<string>>): (r: seq<ShareLine>)
    ensures |r| == |ranking|
    ensures forall i :: 0 <= i < |r| ==> r[i].category == ranking[i].key && r[i].amount == ranking[i].amount
    ensures Total(ranking) > 0 ==> forall i :: 0 <= i < |r| ==> r[i].percent * (Total(ranking) as real) == (r[i].amount as real) * 100.0
    ensures Total(ranking) <= 0 ==> forall i :: 0 <= i < |r| ==> r[i].percent == 0.0
    ensures forall i :: 0 <= i < |r| ==> r[i].percent == Share(ranking[i].amount, Total(ranking))
  {
    var total := Total(ranking);
    seq(|ranking|, i requires 0 <= i < |ranking| => ShareLine(ranking[i].key, ranking[i].amount, Share(ranking[i].amount, total)))
  }

  function PercentTotal(lines: seq<ShareLine>): real {
    if lines == [] then 0.0 else PercentTotal(lines[..|lines| - 1]) + lines[|lines| - 1].percent
  }

  lemma {:induction false} PercentTotalScaled(lines: seq<ShareLine>, es: seq<Entry<string>>, total: int)
    requires |lines| == |es| && total > 0
    requires forall i :: 0 <= i < |lines| ==> lines[i].percent == Share(es[i].amount, total)
    ensures PercentTotal(lines) * (total as real) == (Total(es) as real) * 100.0
  {
    if lines != [] {
      var n := |lines| - 1;
      assert forall i :: 0 <= i < n ==> lines[..n][i] == lines[i] && es[..n][i] == es[i];
      PercentTotalScaled(lines[..n], es[..n], total);
      var t := total as real;
      var q := lines[n].percent;
      assert q * t == (es[n].amount as real) * 100.0;
      assert Total(es) == Total(es[..n]) + es[n].amount;
      ScaleStep(PercentTotal(lines[..n]), q, t, Total(es[..n]) as real, es[n].amount as real);
    }
  }

  lemma ScaleStep(p: real, q: real, t: real, x: real, y: real)
    requires p * t == x * 100.0 && q * t == y * 100.0
    ensures (p + q) * t == (x + y) * 100.0
  {
  }

  /** With a positive total the percentages add up to 100. */
  lemma {:induction false} PercentagesAddUp(ranking: seq<Entry<string>>)
    requires Total(ranking) > 0
    ensures PercentTotal(Shares(ranking)) == 100.0
  {
    var total := Total(ranking);
    PercentTotalScaled(Shares(ranking), ranking, total);
    CancelEqual(PercentTotal(Shares(ranking)), 100.0, total as real);
  }

  lemma CancelEqual(a: real, b: real, n: real)
    requires n > 0.0 && a * n == b * n
    ensures a == b
  {
    CancelPositive(a, b, n);
    CancelPositive(b, a, n);
  }

  /** An entry between 0 and the total gets a percentage between 0 and 100. */
  lemma {:induction false} PercentagesBounded(ranking: seq<Entry<string>>)
    requires forall i :: 0 <= i < |ranking| ==> 0 <= ranking[i].amount <= Total(ranking)
    ensures forall i :: 0 <= i < |Shares(ranking)| ==> 0.0 <= Shares(ranking)[i].percent <= 100.0
  {
    var lines := Shares(ranking);
    var total := Total(ranking);
    forall i | 0 <= i < |lines| ensures 0.0 <= lines[i].percent <= 100.0 {
      if total > 0 {
        var t := total as real;
        assert 0.0 <= (lines[i].amount as real) <= t;
        CancelPositive(0.0, lines[i].percent, t);
        CancelPositive(lines[i].percent, 100.0, t);
      }
    }
  }

  lemma {:induction false} SumForAtMostTotal(es: seq<Entry<string>>, k: string)
    requires forall i :: 0 <= i < |es| ==> es[i].amount >= 0
    ensures 0 <= SumFor(es, k) <= Total(es)
  {
    if es != [] {
      SumForAtMostTotal(es[..|es| - 1], k);
    }
  }

  /** With non-negative amounts each category's total lies between 0 and the grand total,
      which is the filtered total; so the report's percentages lie between 0 and 100. */
  lemma {:induction false} CategoryTotalsBounded(rows: seq<Expense>)
    requires NonNegative(rows)
    ensures Total(CategoryRanking(rows)) == Sum(rows)
    ensures forall i :: 0 <= i < |CategoryRanking(rows)| ==> 0 <= CategoryRanking(rows)[i].amount <= Total(CategoryRanking(rows))
  {
    var es := EntriesBy(rows, Category);
    assert forall i :: 0 <= i < |es| ==> es[i].amount >= 0;
    GroupAmountsBounded(CategoryRanking(rows), es);
  }

  lemma {:induction false} GroupAmountsBounded(gs: seq<Entry<string>>, es: seq<Entry<string>>)
    requires IsGrouping(gs, es)
    requires forall i :: 0 <= i < |es| ==> es[i].amount >= 0
    ensures forall i :: 0 <= i < |gs| ==> 0 <= gs[i].amount <= Total(gs)
  {
    forall i | 0 <= i < |gs| ensures 0 <= gs[i].amount <= Total(gs) {
      assert gs[i].amount == SumFor(es, gs[i].key);
      SumForAtMostTotal(es, gs[i].key);
    }
  }

  /** `df.nlargest(5, 'amount')` (line 67): the five largest rows, largest first. */
  function TopFive(rows: seq<Expense>): (r: seq<Expense>)
    ensures |r| == Min(5, |rows|)
    ensures forall i, j :: 0 <= i < j < |r| ==> r[i].amount >= r[j].amount
  {
    var r := FirstBy(rows, 5, NegAmount);
    forall i, j | 0 <= i < j < |r| ensures r[i].amount >= r[j].amount {
      assert NegAmount(r[i]) <= NegAmount(r[j]);
    }
    r
  }

  /** The top five are taken from the rows and no row left out has a larger amount. */
  lemma {:induction false} TopFiveLargest(rows: seq<Expense>)
    ensures multiset(TopFive(rows)) <= multiset(rows)
    ensures forall x, y :: x in multiset(rows) - multiset(TopFive(rows)) && y in TopFive(rows) ==> x.amount <= y.amount
  {
    var r := TopFive(rows);
    assert r == FirstBy(rows, 5, NegAmount);
    FirstByOmitted(rows, 5, NegAmount);
    forall x, y | x in multiset(rows) - multiset(r) && y in r ensures x.amount <= y.amount {
      assert NegAmount(y) <= NegAmount(x);
    }
  }

  /** Lines 69-72: a missing description prints as "-", the score only when the column exists. */
  function TopLineOf(e: Expense, hasSatisfaction: bool): (l: TopLine)
    ensures l.amount == e.amount && l.date == e.date && l.category == e.category
    ensures e.description.None? ==> l.description == "-"
    ensures e.description.Some? ==> l.description == e.description.value
    ensures l.score.Some? <==> hasSatisfaction && e.satisfaction.Some?
    ensures l.score.Some? ==> l.score == e.satisfaction
  {
    TopLine(e.date, e.category, e.description.GetOr("-"), e.amount, if hasSatisfaction then e.satisfaction else None)
  }

  function TopLinesOf(top: seq<Expense>, hasSatisfaction: bool): (r: seq<TopLine>)
    ensures |r| == |top|
    ensures forall i :: 0 <= i < |top| ==> r[i] == TopLineOf(top[i], hasSatisfaction)
  {
    seq(|top|, i requires 0 <= i < |top| => TopLineOf(top[i], hasSatisfaction))
  }

  /** The rows of the top-5 table: at most five, largest amount first. */
  function TopLines(t: Table): (r: seq<TopLine>)
    ensures |r| == Min(5, |t.rows|)
    ensures forall i, j :: 0 <= i < j < |r| ==> r[i].amount >= r[j].amount
  {
    TopLinesOf(TopFive(t.rows), t.hasSatisfaction)
  }

  /** `ai_insights` is appended only when it is a non-empty text (line 74). */
  function Insights(ai: Option<string>): (r: Option<string>)
    ensures r.Some? <==> ai.Some? && ai.value != ""
    ensures r.Some? ==> r == ai
  {
    if ai.Some? && ai.value != "" then ai else None
  }

  /** The `for cat, amount in category_sum.items()` loop of lines 54-56. */
  method CategoryRows(ranking: seq<Entry<string>>) returns (lines: seq<ShareLine>)
    ensures lines == Shares(ranking)
  {
    var total := Total(ranking);
    lines := [];
    var i := 0;
    while i < |ranking|
      invariant 0 <= i <= |ranking|
      invariant |lines| == i
      invariant forall k :: 0 <= k < i ==> lines[k] == ShareLine(ranking[k].key, ranking[k].amount, Share(ranking[k].amount, total))
    {
      lines := lines + [ShareLine(ranking[i].key, ranking[i].amount, Share(ranking[i].amount, total))];
      i := i + 1;
    }
  }

  /** The `for _, row in top5.iterrows()` loop of lines 68-72. */
  method TopRows(top: seq<Expense>, hasSatisfaction: bool) returns (lines: seq<TopLine>)
    ensures lines == TopLinesOf(top, hasSatisfaction)
  {
    lines := [];
    var k := 0;
    while k < |top|
      invariant 0 <= k <= |top|
      invariant |lines| == k
      invariant forall j :: 0 <= j < k ==> lines[j] == TopLineOf(top[j], hasSatisfaction)
    {
      lines := lines + [TopLineOf(top[k], hasSatisfaction)];
      k := k + 1;
    }
  }

  /** Lines 20-77. The generation time is not modelled. */
  method GenerateMonthlyReport(t: Table, budget: int, total: int, diff: int, split: Split, sat: SatSummary, ai: Option<string>)
    returns (rep: MonthlyReport)
    ensures rep.status == "여유" <==> diff >= 0
    ensures rep.gap >= 0 && (rep.gap == diff || rep.gap == -diff)
    ensures rep.budget == budget && rep.total == total && rep.satisfaction == sat
    ensures rep.essential == split.essential && rep.waste == split.waste
    ensures rep.essentialRate == split.essentialRate && rep.wasteRate == split.wasteRate
    ensures rep.categories == Shares(CategoryRanking(t.rows))
    ensures rep.top == TopLines(t)
    ensures rep.insights == Insights(ai)
  {
    var categories := CategoryRows(CategoryRanking(t.rows));
    var lines := TopRows(TopFive(t.rows), t.hasSatisfaction);
    rep := MonthlyReport(
      budget, total, if diff >= 0 then diff else -diff, Status(diff),
      split.essential, split.waste, split.essentialRate, split.wasteRate,
      sat, categories, lines, Insights(ai));
  }
}
