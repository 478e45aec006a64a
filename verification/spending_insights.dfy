/**
 * Budget-versus-spend insights (my-app/src/components/SpendingInsights.tsx):
 * for each offered category, this month's spending against its budget, the
 * over- and under-budget lists with their totals, and the four classifiers
 * that map a usage percentage to a colour band.
 */
module SpendingInsights {
  import opened Domain
  import Records
  import Categories
  import TransactionController

  datatype Insight = Insight(
    category: string,
    spent: real,
    budget: real,
    percentage: real,
    isOverBudget: bool,
    remaining: real,
    overage: real)

  /** A transaction that counts as spending in `category` during the given
      month (1..12) and year: an outflow of that category dated then. */
  predicate CountsAsSpending(t: Transaction, category: string, month: int, year: int) {
    t.category == category && t.date.month == month && t.date.year == year && t.amount < 0.0
  }

  /** The sum of |amount| over the transactions that count as spending. */
  function Spent(ts: seq<Transaction>, category: string, month: int, year: int): real {
    if ts == [] then 0.0
    else
      var last := ts[|ts| - 1];
      Spent(ts[..|ts| - 1], category, month, year)
        + (if CountsAsSpending(last, category, month, year) then Abs(last.amount) else 0.0)
  }

  lemma {:induction false} SpentNonNegative(ts: seq<Transaction>, category: string, month: int, year: int)
    ensures Spent(ts, category, month, year) >= 0.0
  {
    if ts != [] {
      SpentNonNegative(ts[..|ts| - 1], category, month, year);
    }
  }

  /** `Math.max(0, x)` */
  function Max0(x: real): (r: real)
    ensures r >= 0.0 && r >= x && (r == 0.0 || r == x)
  {
    if x > 0.0 then x else 0.0
  }

  /** The insight of one category. Over budget means spending strictly above
      the budget; the remaining and overage amounts are never negative, at
      most one of them is non-zero, and their difference is budget minus
      spent; the percentage is spent/budget*100 for a positive budget and 0
      otherwise, so a zero budget never divides. */
  function MakeInsight(ts: seq<Transaction>, budgets: Records.Record, category: string, month: int, year: int): (r: Insight)
    ensures r.category == category
    ensures r.budget == Records.Lookup(budgets, category)
    ensures r.spent == Spent(ts, category, month, year) && r.spent >= 0.0
    ensures r.isOverBudget <==> r.spent > r.budget
    ensures r.remaining >= 0.0 && r.overage >= 0.0 && (r.remaining == 0.0 || r.overage == 0.0)
    ensures r.remaining - r.overage == r.budget - r.spent
    ensures r.budget > 0.0 ==> r.percentage * r.budget == r.spent * 100.0 && r.percentage >= 0.0
    ensures r.budget <= 0.0 ==> r.percentage == 0.0
  {
    SpentNonNegative(ts, category, month, year);
    var spent := Spent(ts, category, month, year);
    var budget := Records.Lookup(budgets, category);
    var percentage := if budget > 0.0 then (spent / budget) * 100.0 else 0.0;
    Insight(category, spent, budget, percentage, spent > budget, Max0(budget - spent), Max0(spent - budget))
  }

  /** The field relations every insight satisfies. */
  predicate Consistent(x: Insight) {
    && x.spent >= 0.0
    && (x.isOverBudget <==> x.spent > x.budget)
    && x.remaining == Max0(x.budget - x.spent)
    && x.overage == Max0(x.spent - x.budget)
  }

  /** `categories.map(...)`: one insight per offered category, in list order. */
  function Insights(ts: seq<Transaction>, budgets: Records.Record, month: int, year: int): (r: seq<Insight>)
    ensures |r| == |Categories.Categories|
    ensures forall i :: 0 <= i < |r| ==>
      r[i] == MakeInsight(ts, budgets, Categories.Categories[i], month, year) && Consistent(r[i])
  {
    seq(|Categories.Categories|, i requires 0 <= i < |Categories.Categories| =>
      MakeInsight(ts, budgets, Categories.Categories[i], month, year))
  }

  /** `insights.filter(i => i.isOverBudget)` */
  function OverBudget(ins: seq<Insight>): (r: seq<Insight>)
    ensures forall x :: x in r <==> x in ins && x.isOverBudget
  {
    if ins == [] then []
    else
      var init, last := ins[..|ins| - 1], ins[|ins| - 1];
      assert forall x :: x in ins <==> x in init || x == last;
      if last.isOverBudget then OverBudget(init) + [last] else OverBudget(init)
  }

  /** `insights.filter(i => !i.isOverBudget && i.budget > 0)` */
  function UnderBudget(ins: seq<Insight>): (r: seq<Insight>)
    ensures forall x :: x in r <==> x in ins && !x.isOverBudget && x.budget > 0.0
  {
    if ins == [] then []
    else
      var init, last := ins[..|ins| - 1], ins[|ins| - 1];
      assert forall x :: x in ins <==> x in init || x == last;
      if !last.isOverBudget && last.budget > 0.0 then UnderBudget(init) + [last] else UnderBudget(init)
  }

  /** No insight is on both lists; a category with no budget and no spending
      is on neither. */
  lemma ListsDisjoint(ins: seq<Insight>, x: Insight)
    ensures !(x in OverBudget(ins) && x in UnderBudget(ins))
    ensures Consistent(x) && x.budget == 0.0 && x.spent == 0.0 ==> x !in OverBudget(ins) && x !in UnderBudget(ins)
  {
  }

  function SumOverage(ins: seq<Insight>): real {
    if ins == [] then 0.0 else SumOverage(ins[..|ins| - 1]) + ins[|ins| - 1].overage
  }

  function SumRemaining(ins: seq<Insight>): real {
    if ins == [] then 0.0 else SumRemaining(ins[..|ins| - 1]) + ins[|ins| - 1].remaining
  }

  /** `overBudgetCategories.reduce((sum, i) => sum + i.overage, 0)` */
  function TotalOverage(ins: seq<Insight>): real {
    SumOverage(OverBudget(ins))
  }

  /** `underBudgetCategories.reduce((sum, i) => sum + i.remaining, 0)` */
  function TotalSavings(ins: seq<Insight>): real {
    SumRemaining(UnderBudget(ins))
  }

  /** Budget minus spent, summed over the insights. */
  function SumNet(ins: seq<Insight>): real {
    if ins == [] then 0.0 else SumNet(ins[..|ins| - 1]) + (ins[|ins| - 1].budget - ins[|ins| - 1].spent)
  }

  /** Filtering to the over-budget list loses no overage and filtering to the
      under-budget list loses no remaining amount; both totals are therefore
      non-negative, and savings minus overage is budget minus spent overall. */
  lemma {:induction false} TotalsCoverAll(ins: seq<Insight>)
    requires forall i :: 0 <= i < |ins| ==> Consistent(ins[i])
    ensures TotalOverage(ins) == SumOverage(ins) && TotalOverage(ins) >= 0.0
    ensures TotalSavings(ins) == SumRemaining(ins) && TotalSavings(ins) >= 0.0
    ensures TotalSavings(ins) - TotalOverage(ins) == SumNet(ins)
  {
    if ins != [] {
      var init, last := ins[..|ins| - 1], ins[|ins| - 1];
      TotalsCoverAll(init);
      var o, u := OverBudget(init), UnderBudget(init);
      if last.isOverBudget {
        assert (o + [last])[..|o|] == o;
      }
      if !last.isOverBudget && last.budget > 0.0 {
        assert (u + [last])[..|u|] == u;
      }
    }
  }

  /** The four colour bands of a usage percentage, most severe first. */
  datatype Band = Red | Orange | Yellow | Green

  /** The band every classifier uses: >= 100, >= 80, >= 60, below. */
  function BandOf(percentage: real): Band {
    if percentage >= 100.0 then Red
    else if percentage >= 80.0 then Orange
    else if percentage >= 60.0 then Yellow
    else Green
  }

  function Severity(b: Band): nat {
    match b
    case Red => 3
    case Orange => 2
    case Yellow => 1
    case Green => 0
  }

  function BandName(b: Band): string {
    match b
    case Red => "red"
    case Orange => "orange"
    case Yellow => "yellow"
    case Green => "green"
  }

  /** `getInsightColor` */
  function InsightColor(percentage: real): string {
    if percentage >= 100.0 then "red"
    else if percentage >= 80.0 then "orange"
    else if percentage >= 60.0 then "yellow"
    else "green"
  }

  /** `getInsightIcon`. The source file holds each icon as the characters its
      emoji's UTF-8 bytes spell when read as Mac Roman (siren, warning sign,
      yellow circle, check mark), and those characters are what is shown;
      they are modelled as written. */
  function InsightIcon(percentage: real): string {
    if percentage >= 100.0 then "\U{F8FF}\U{FC}\U{F6}\U{AE}"
    else if percentage >= 80.0 then "\U{201A}\U{F6}\U{2020}\U{D4}\U{220F}\U{E8}"
    else if percentage >= 60.0 then "\U{F8FF}\U{FC}\U{FC}\U{B0}"
    else "\U{201A}\U{FA}\U{D6}"
  }

  /** `getProgressBarColor` */
  function ProgressBarColor(percentage: real): string {
    if percentage >= 100.0 then "bg-red-500"
    else if percentage >= 80.0 then "bg-orange-500"
    else if percentage >= 60.0 then "bg-yellow-500"
    else "bg-green-500"
  }

  /** `getCardBorderColor` */
  function CardBorderColor(percentage: real): string {
    if percentage >= 100.0 then "border-red-200"
    else if percentage >= 80.0 then "border-orange-200"
    else if percentage >= 60.0 then "border-yellow-200"
    else "border-green-200"
  }

  function BandIcon(b: Band): string {
    match b
    case Red => "\U{F8FF}\U{FC}\U{F6}\U{AE}"
    case Orange => "\U{201A}\U{F6}\U{2020}\U{D4}\U{220F}\U{E8}"
    case Yellow => "\U{F8FF}\U{FC}\U{FC}\U{B0}"
    case Green => "\U{201A}\U{FA}\U{D6}"
  }

  /** All four classifiers pick the same band for the same percentage. */
  lemma ClassifiersAgree(percentage: real)
    ensures InsightColor(percentage) == BandName(BandOf(percentage))
    ensures ProgressBarColor(percentage) == "bg-" + BandName(BandOf(percentage)) + "-500"
    ensures CardBorderColor(percentage) == "border-" + BandName(BandOf(percentage)) + "-200"
    ensures InsightIcon(percentage) == BandIcon(BandOf(percentage))
  {
    match BandOf(percentage)
    case Red =>
      assert "bg-" + "red" + "-500" == "bg-red-500";
      assert "border-" + "red" + "-200" == "border-red-200";
    case Orange =>
      assert "bg-" + "orange" + "-500" == "bg-orange-500";
      assert "border-" + "orange" + "-200" == "border-orange-200";
    case Yellow =>
      assert "bg-" + "yellow" + "-500" == "bg-yellow-500";
      assert "border-" + "yellow" + "-200" == "border-yellow-200";
    case Green =>
      assert "bg-" + "green" + "-500" == "bg-green-500";
      assert "border-" + "green" + "-200" == "border-green-200";
  }

  /** A higher percentage never lands in a milder band. */
  lemma BandMonotone(p: real, q: real)
    requires p <= q
    ensures Severity(BandOf(p)) <= Severity(BandOf(q))
  {
  }

  /** With a positive budget the red band means spending has reached the
      budget, one step before `isOverBudget`, which needs it exceeded. */
  lemma RedBandIsBudgetReached(x: Insight)
    requires Consistent(x) && x.budget > 0.0 && x.percentage * x.budget == x.spent * 100.0
    ensures BandOf(x.percentage) == Red <==> x.spent >= x.budget
    ensures x.isOverBudget ==> BandOf(x.percentage) == Red
  {
    if x.percentage >= 100.0 {
      assert x.spent * 100.0 >= 100.0 * x.budget;
    } else {
      assert x.spent * 100.0 < 100.0 * x.budget;
    }
  }

  /** `Math.min(100, percentage)`: the width of the progress bar. */
  function BarWidth(percentage: real): (w: real)
    ensures w <= 100.0 && (w == 100.0 || w == percentage)
    ensures percentage >= 0.0 ==> w >= 0.0
  {
    if percentage < 100.0 then percentage else 100.0
  }

  /** One Food outflow of 1200 this month against a Food budget of 1000:
      the Food insight is over budget by 200 at 120 percent, with nothing
      remaining, and lands in the red band. */
  lemma OverspendExample(id: Id, description: string, month: Month, year: int, day: int)
    ensures var t := Transaction(id, description, -1200.0, Date(year, month, day), "Food");
      var x := MakeInsight([t], [Records.Entry("Food", 1000.0)], "Food", month, year);
      && x.spent == 1200.0 && x.budget == 1000.0
      && x.isOverBudget && x.overage == 200.0 && x.remaining == 0.0
      && x.percentage == 120.0 && BandOf(x.percentage) == Red
  {
    var t := Transaction(id, description, -1200.0, Date(year, month, day), "Food");
    assert [t][..0] == [];
    assert Spent([t], "Food", month, year) == 1200.0;
    assert Records.Lookup([Records.Entry("Food", 1000.0)], "Food") == 1000.0;
  }

  /** Housing, Transport and Healthcare never show spending when every record
      went through the server's sign rule, because the rule stores their
      amounts non-negative. */
  lemma {:induction false} NonExpenseCategoriesNeverSpent(ts: seq<Transaction>, category: string, month: int, year: int)
    requires forall i :: 0 <= i < |ts| ==> TransactionController.SignNormalised(ts[i])
    requires category in Categories.Categories && category !in TransactionController.ExpenseCategories
    ensures category == "Income" || category == "Housing" || category == "Transport" || category == "Healthcare"
    ensures Spent(ts, category, month, year) == 0.0
  {
    TransactionController.OfferedCategoriesOutsideExpenseSet(0.0, category);
    if ts != [] {
      NonExpenseCategoriesNeverSpent(ts[..|ts| - 1], category, month, year);
    }
  }
}
