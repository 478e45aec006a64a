/**
 * The budget overview (my-app/src/components/BudgetComparisonChart.tsx): one
 * row per offered category with its budget and this month's spending, the
 * three summary figures, and the progress percentage of each row. The rows
 * are computed independently of SpendingInsights and are proved to agree with it.
 */
module BudgetComparisonChart {
  import opened Domain
  import Records
  import Categories
  import App
  import SpendingInsights

  /** One entry of `data`. */
  datatype Row = Row(category: string, budgeted: real, spent: real, remaining: real, isOverBudget: bool)

  /** The chart's own filter: category, outflow, month, year. */
  predicate ChartCounts(t: Transaction, category: string, month: int, year: int) {
    t.category == category && t.amount < 0.0 && t.date.month == month && t.date.year == year
  }

  /** This month's spending in one category, by the chart's own filter. */
  function ChartSpent(ts: seq<Transaction>, category: string, month: int, year: int): real {
    if ts == [] then 0.0
    else
      var last := ts[|ts| - 1];
      ChartSpent(ts[..|ts| - 1], category, month, year)
        + (if ChartCounts(last, category, month, year) then Abs(last.amount) else 0.0)
  }

  /** The chart and the insights panel compute the same spending. */
  lemma {:induction false} SpentAgrees(ts: seq<Transaction>, category: string, month: int, year: int)
    ensures ChartSpent(ts, category, month, year) == SpendingInsights.Spent(ts, category, month, year)
  {
    if ts != [] {
      SpentAgrees(ts[..|ts| - 1], category, month, year);
    }
  }

  /** The row of one category: it holds the same budget, spending, remaining
      amount and over-budget flag as that category's insight. */
  function MakeRow(ts: seq<Transaction>, budgets: Records.Record, category: string, month: int, year: int): (r: Row)
    ensures var x := SpendingInsights.MakeInsight(ts, budgets, category, month, year);
      && r.category == x.category
      && r.budgeted == x.budget
      && r.spent == x.spent
      && r.remaining == x.remaining
      && r.isOverBudget == x.isOverBudget
  {
    SpentAgrees(ts, category, month, year);
    var spent := ChartSpent(ts, category, month, year);
    var budgeted := Records.Lookup(budgets, category);
    Row(category, budgeted, spent, SpendingInsights.Max0(budgeted - spent), spent > budgeted)
  }

  /** `data`: one row per offered category, in list order, each agreeing
      with the insight at the same position. */
  function ChartRows(ts: seq<Transaction>, budgets: Records.Record, month: int, year: int): (rows: seq<Row>)
    ensures |rows| == |Categories.Categories|
    ensures forall i :: 0 <= i < |rows| ==>
      var x := SpendingInsights.Insights(ts, budgets, month, year)[i];
      && rows[i].category == Categories.Categories[i]
      && rows[i].budgeted == Records.Lookup(budgets, Categories.Categories[i])
      && rows[i].budgeted == x.budget && rows[i].spent == x.spent
      && rows[i].remaining == x.remaining && rows[i].isOverBudget == x.isOverBudget
  {
    seq(|Categories.Categories|, i requires 0 <= i < |Categories.Categories| =>
      MakeRow(ts, budgets, Categories.Categories[i], month, year))
  }

  /** `totalBudget`: every value of the budget map, whatever its key. */
  function TotalBudget(budgets: Records.Record): real {
    Records.SumValues(budgets)
  }

  /** `totalSpent`: the spending of the rows. */
  function TotalSpent(rows: seq<Row>): real {
    if rows == [] then 0.0 else TotalSpent(rows[..|rows| - 1]) + rows[|rows| - 1].spent
  }

  /** `overBudgetCount`: the rows that are over budget. */
  function OverBudgetCount(rows: seq<Row>): nat {
    if rows == [] then 0 else OverBudgetCount(rows[..|rows| - 1]) + (if rows[|rows| - 1].isOverBudget then 1 else 0)
  }

  /** The budgets of the rows, added up. */
  function RowBudgets(rows: seq<Row>): real {
    if rows == [] then 0.0 else RowBudgets(rows[..|rows| - 1]) + rows[|rows| - 1].budgeted
  }

  /** Rows whose budgets are the lookups of `cs`, position by position, add
      up to the lookups over `cs`. */
  lemma {:induction false} RowBudgetsAsLookups(rows: seq<Row>, budgets: Records.Record, cs: seq<string>)
    requires |rows| == |cs|
    requires forall i :: 0 <= i < |rows| ==> rows[i].budgeted == Records.Lookup(budgets, cs[i])
    ensures RowBudgets(rows) == Records.SumLookups(budgets, cs)
  {
    if rows != [] {
      RowBudgetsAsLookups(rows[..|rows| - 1], budgets, cs[..|cs| - 1]);
    }
  }

  /** When every key of the budget map is an offered category, the Total
      Budget card is the sum of the rows' budgets. */
  lemma TotalBudgetOfCategoryKeys(ts: seq<Transaction>, budgets: Records.Record, month: int, year: int)
    requires Records.KeysUnique(budgets)
    requires forall i :: 0 <= i < |budgets| ==> budgets[i].key in Categories.Categories
    ensures TotalBudget(budgets) == RowBudgets(ChartRows(ts, budgets, month, year))
  {
    var rows := ChartRows(ts, budgets, month, year);
    Categories.CategoriesShape();
    Records.SumValuesAsLookups(budgets, Categories.Categories);
    RowBudgetsAsLookups(rows, budgets, Categories.Categories);
  }

  /** For any budget map, the Total Budget card is the sum of the rows'
      budgets plus the values stored under keys that are not offered
      categories: those count toward the card but appear in no row. */
  lemma TotalBudgetCountsOtherKeys(ts: seq<Transaction>, budgets: Records.Record, month: int, year: int)
    requires Records.KeysUnique(budgets)
    ensures TotalBudget(budgets)
      == RowBudgets(ChartRows(ts, budgets, month, year)) + Records.SumValues(Records.OtherKeys(budgets, Categories.Categories))
  {
    var rows := ChartRows(ts, budgets, month, year);
    Categories.CategoriesShape();
    Records.SumValuesSplit(budgets, Categories.Categories);
    RowBudgetsAsLookups(rows, budgets, Categories.Categories);
  }

  /** `Σ_{c in cs} ChartSpent(ts, c)` */
  function SpentOver(ts: seq<Transaction>, cs: seq<string>, month: int, year: int): real {
    if cs == [] then 0.0 else SpentOver(ts, cs[..|cs| - 1], month, year) + ChartSpent(ts, cs[|cs| - 1], month, year)
  }

  /** Rows whose spending is that of `cs`, position by position, add up to
      the spending over `cs`. */
  lemma {:induction false} TotalSpentAsSpentOver(rows: seq<Row>, ts: seq<Transaction>, cs: seq<string>, month: int, year: int)
    requires |rows| == |cs|
    requires forall i :: 0 <= i < |rows| ==> rows[i].spent == ChartSpent(ts, cs[i], month, year)
    ensures TotalSpent(rows) == SpentOver(ts, cs, month, year)
  {
    if rows != [] {
      TotalSpentAsSpentOver(rows[..|rows| - 1], ts, cs[..|cs| - 1], month, year);
    }
  }

  /** One more transaction adds its magnitude at most once over a
      repeat-free category list. */
  lemma {:induction false} SpentOverStep(ts: seq<Transaction>, cs: seq<string>, month: int, year: int)
    requires ts != []
    requires forall i, j :: 0 <= i < j < |cs| ==> cs[i] != cs[j]
    ensures var last := ts[|ts| - 1];
      SpentOver(ts, cs, month, year) == SpentOver(ts[..|ts| - 1], cs, month, year)
        + (if ChartCounts(last, last.category, month, year) && last.category in cs then Abs(last.amount) else 0.0)
  {
    if cs != [] {
      var init := cs[..|cs| - 1];
      assert forall c :: c in cs <==> c in init || c == cs[|cs| - 1];
      SpentOverStep(ts, init, month, year);
    }
  }

  lemma {:induction false} SpentOverAtMostExpenses(ts: seq<Transaction>, cs: seq<string>, month: int, year: int)
    requires forall i, j :: 0 <= i < j < |cs| ==> cs[i] != cs[j]
    ensures 0.0 <= SpentOver(ts, cs, month, year) <= App.Expenses(ts)
  {
    if ts == [] {
      assert SpentOver(ts, cs, month, year) == 0.0 by {
        NoSpending(cs, month, year);
      }
    } else {
      var init, last := ts[..|ts| - 1], ts[|ts| - 1];
      SpentOverAtMostExpenses(init, cs, month, year);
      SpentOverStep(ts, cs, month, year);
      App.ExpensesStep(ts);
    }
  }

  lemma {:induction false} NoSpending(cs: seq<string>, month: int, year: int)
    ensures SpentOver([], cs, month, year) == 0.0
  {
    if cs != [] {
      NoSpending(cs[..|cs| - 1], month, year);
    }
  }

  /** The Total Spent card is the sum of the categories' spending, is not
      negative, and never exceeds the App's expenses card: each outflow is
      counted under at most one category. */
  lemma TotalSpentBounds(ts: seq<Transaction>, budgets: Records.Record, month: int, year: int)
    ensures var rows := ChartRows(ts, budgets, month, year);
      && TotalSpent(rows) == SpentOver(ts, Categories.Categories, month, year)
      && 0.0 <= TotalSpent(rows) <= App.Expenses(ts)
  {
    var rows := ChartRows(ts, budgets, month, year);
    Categories.CategoriesShape();
    forall i | 0 <= i < |rows|
      ensures rows[i].spent == ChartSpent(ts, Categories.Categories[i], month, year)
    {
      assert rows[i] == MakeRow(ts, budgets, Categories.Categories[i], month, year);
    }
    TotalSpentAsSpentOver(rows, ts, Categories.Categories, month, year);
    SpentOverAtMostExpenses(ts, Categories.Categories, month, year);
  }

  /** Rows and insights with the same over-budget flags, position by
      position, count the same number over budget. */
  lemma {:induction false} CountMatchesOverBudgetList(rows: seq<Row>, ins: seq<SpendingInsights.Insight>)
    requires |rows| == |ins|
    requires forall i :: 0 <= i < |rows| ==> rows[i].isOverBudget == ins[i].isOverBudget
    ensures OverBudgetCount(rows) == |SpendingInsights.OverBudget(ins)|
  {
    if rows != [] {
      CountMatchesOverBudgetList(rows[..|rows| - 1], ins[..|ins| - 1]);
    }
  }

  /** The Over Budget card counts exactly the insights panel's over-budget
      list, and is at most the number of offered categories. */
  lemma OverBudgetCountAgrees(ts: seq<Transaction>, budgets: Records.Record, month: int, year: int)
    ensures var rows := ChartRows(ts, budgets, month, year);
      && OverBudgetCount(rows) == |SpendingInsights.OverBudget(SpendingInsights.Insights(ts, budgets, month, year))|
      && OverBudgetCount(rows) <= |Categories.Categories|
  {
    var rows := ChartRows(ts, budgets, month, year);
    CountMatchesOverBudgetList(rows, SpendingInsights.Insights(ts, budgets, month, year));
    CountAtMostLength(rows);
  }

  lemma {:induction false} CountAtMostLength(rows: seq<Row>)
    ensures OverBudgetCount(rows) <= |rows|
  {
    if rows != [] {
      CountAtMostLength(rows[..|rows| - 1]);
    }
  }

  /** `(Spent / Budgeted) * 100` for a non-zero budget. */
  function ProgressPercent(spent: real, budgeted: real): (p: real)
    requires budgeted != 0.0
    ensures p * budgeted == spent * 100.0
    ensures spent >= 0.0 && budgeted > 0.0 ==> p >= 0.0
  {
    (spent / budgeted) * 100.0
  }

  /** A JavaScript number that a division can produce. */
  datatype Ratio = Finite(value: real) | PosInfinity | NegInfinity | NaN

  /** The progress percentage as the row computes it, dividing with no zero
      guard: a zero budget gives NaN with no spending and Infinity with some. */
  function ProgressAsWritten(spent: real, budgeted: real): (r: Ratio)
    ensures budgeted != 0.0 ==> r == Finite(ProgressPercent(spent, budgeted))
    ensures budgeted == 0.0 ==> !r.Finite?
    ensures budgeted == 0.0 && spent == 0.0 ==> r == NaN
    ensures budgeted == 0.0 && spent > 0.0 ==> r == PosInfinity
  {
    if budgeted != 0.0 then Finite((spent / budgeted) * 100.0)
    else if spent > 0.0 then PosInfinity
    else if spent < 0.0 then NegInfinity
    else NaN
  }

  /** `Math.min(100, progress)` on a division result: NaN stays NaN, and an
      infinite progress fills the whole bar. */
  function BarWidthAsWritten(r: Ratio): Ratio {
    match r
    case Finite(v) => Finite(SpendingInsights.BarWidth(v))
    case PosInfinity => Finite(100.0)
    case NegInfinity => NegInfinity
    case NaN => NaN
  }

  /** A category with no budget: with nothing spent the row reads "NaN%";
      with 50 spent it reads "Infinity%" and shows a full bar. */
  lemma ZeroBudgetProgress()
    ensures ProgressAsWritten(0.0, 0.0) == NaN && BarWidthAsWritten(ProgressAsWritten(0.0, 0.0)) == NaN
    ensures ProgressAsWritten(50.0, 0.0) == PosInfinity && BarWidthAsWritten(ProgressAsWritten(50.0, 0.0)) == Finite(100.0)
  {
  }

  /** The progress of a row with the insights panel's guard: the division for
      a positive budget and 0 otherwise. It is always a finite number, agrees
      with the unguarded division wherever the budget is positive, and equals
      the insight's percentage for the same category. */
  function Progress(row: Row): (p: real)
    ensures row.budgeted > 0.0 ==> ProgressAsWritten(row.spent, row.budgeted) == Finite(p)
    ensures row.budgeted <= 0.0 ==> p == 0.0
    ensures row.spent >= 0.0 ==> p >= 0.0
  {
    if row.budgeted > 0.0 then ProgressPercent(row.spent, row.budgeted) else 0.0
  }

  /** The bar width of a row: between 0 and 100 percent. */
  function RowBarWidth(row: Row): (w: real)
    requires row.spent >= 0.0
    ensures 0.0 <= w <= 100.0
    ensures row.spent >= row.budgeted > 0.0 ==> w == 100.0
  {
    if row.budgeted > 0.0 && row.spent >= row.budgeted then
      FullBudgetFullBar(row.spent, row.budgeted);
      SpendingInsights.BarWidth(Progress(row))
    else
      SpendingInsights.BarWidth(Progress(row))
  }

  /** Spending that reaches a positive budget is at least 100 percent. */
  lemma FullBudgetFullBar(spent: real, budgeted: real)
    requires spent >= budgeted > 0.0
    ensures ProgressPercent(spent, budgeted) >= 100.0
  {
    var p := ProgressPercent(spent, budgeted);
    assert p * budgeted == spent * 100.0;
    assert spent * 100.0 >= budgeted * 100.0;
    assert p * budgeted >= 100.0 * budgeted;
  }

  /** Each row's guarded progress is the percentage of the insight at the
      same position. */
  lemma ProgressMatchesInsight(ts: seq<Transaction>, budgets: Records.Record, month: int, year: int, i: nat)
    requires i < |Categories.Categories|
    ensures Progress(ChartRows(ts, budgets, month, year)[i]) == SpendingInsights.Insights(ts, budgets, month, year)[i].percentage
  {
    var row := ChartRows(ts, budgets, month, year)[i];
    var x := SpendingInsights.Insights(ts, budgets, month, year)[i];
    if row.budgeted > 0.0 {
      assert Progress(row) * row.budgeted == x.percentage * row.budgeted;
    }
  }
}
