/**
 * The expenses-by-category chart (my-app/src/components/CategoryPieChart.tsx):
 * the magnitudes of the negative amounts summed per category, categories in
 * the order they first occur (a JavaScript Map keeps insertion order).
 */
module CategoryPieChart {
  import opened Domain
  import App

  /** One slice of the chart. */
  datatype Slice = Slice(name: string, value: real)

  /** A transaction the chart counts: one with a negative amount. */
  predicate IsExpense(t: Transaction) {
    t.amount < 0.0
  }

  /** Some transaction of `category` has a negative amount. */
  predicate HasExpense(ts: seq<Transaction>, category: string) {
    exists i :: 0 <= i < |ts| && IsExpense(ts[i]) && ts[i].category == category
  }

  /** Some slice carries the name `category`. */
  predicate HasSlice(slices: seq<Slice>, category: string) {
    exists i :: 0 <= i < |slices| && slices[i].name == category
  }

  /** The sum of |amount| over the negative transactions of `category`. */
  function CategoryExpense(ts: seq<Transaction>, category: string): real {
    if ts == [] then 0.0
    else
      var last := ts[|ts| - 1];
      CategoryExpense(ts[..|ts| - 1], category) + (if IsExpense(last) && last.category == category then -last.amount else 0.0)
  }

  /** The categories with a negative transaction, in order of first occurrence. */
  function ExpenseCategoryOrder(ts: seq<Transaction>): seq<string> {
    if ts == [] then []
    else
      var order := ExpenseCategoryOrder(ts[..|ts| - 1]);
      var last := ts[|ts| - 1];
      if IsExpense(last) && last.category !in order then order + [last.category] else order
  }

  /** The chart data described directly. */
  function PieSpec(ts: seq<Transaction>): seq<Slice> {
    var order := ExpenseCategoryOrder(ts);
    seq(|order|, i requires 0 <= i < |order| => Slice(order[i], CategoryExpense(ts, order[i])))
  }

  lemma {:induction false} CategoryExpenseNonNegative(ts: seq<Transaction>, c: string)
    ensures CategoryExpense(ts, c) >= 0.0
  {
    if ts != [] {
      CategoryExpenseNonNegative(ts[..|ts| - 1], c);
    }
  }

  /** A category is listed exactly when it has a negative transaction; the
      list has no repeats; a listed category has a positive total and an
      unlisted one a zero total. */
  lemma {:induction false} OrderFacts(ts: seq<Transaction>)
    ensures forall c :: c in ExpenseCategoryOrder(ts) <==> HasExpense(ts, c)
    ensures forall i, j :: 0 <= i < j < |ExpenseCategoryOrder(ts)| ==> ExpenseCategoryOrder(ts)[i] != ExpenseCategoryOrder(ts)[j]
    ensures forall c :: c in ExpenseCategoryOrder(ts) ==> CategoryExpense(ts, c) > 0.0
    ensures forall c :: c !in ExpenseCategoryOrder(ts) ==> CategoryExpense(ts, c) == 0.0
  {
    if ts != [] {
      var init, last := ts[..|ts| - 1], ts[|ts| - 1];
      OrderFacts(init);
      forall c
        ensures c in ExpenseCategoryOrder(ts) <==> HasExpense(ts, c)
      {
        if HasExpense(ts, c) {
          var i :| 0 <= i < |ts| && IsExpense(ts[i]) && ts[i].category == c;
          if i < |init| {
            assert init[i] == ts[i];
          }
        }
        if c in ExpenseCategoryOrder(init) {
          var i :| 0 <= i < |init| && IsExpense(init[i]) && init[i].category == c;
          assert ts[i] == init[i];
        }
      }
      forall c | c in ExpenseCategoryOrder(ts)
        ensures CategoryExpense(ts, c) > 0.0
      {
        CategoryExpenseNonNegative(init, c);
      }
    }
  }

  /** Sum of the totals of the categories listed in `cs`. */
  function TotalOver(cs: seq<string>, ts: seq<Transaction>): real {
    if cs == [] then 0.0 else TotalOver(cs[..|cs| - 1], ts) + CategoryExpense(ts, cs[|cs| - 1])
  }

  /** The slice values, added up. */
  function SliceTotal(slices: seq<Slice>): real {
    if slices == [] then 0.0 else SliceTotal(slices[..|slices| - 1]) + slices[|slices| - 1].value
  }

  /** One more transaction adds its magnitude once to a repeat-free list that
      holds its category, and nothing to one that does not. */
  lemma {:induction false} TotalOverStep(cs: seq<string>, ts: seq<Transaction>)
    requires ts != []
    requires forall i, j :: 0 <= i < j < |cs| ==> cs[i] != cs[j]
    ensures var last := ts[|ts| - 1];
      TotalOver(cs, ts) == TotalOver(cs, ts[..|ts| - 1])
        + (if IsExpense(last) && last.category in cs then -last.amount else 0.0)
  {
    if cs != [] {
      var init := cs[..|cs| - 1];
      assert forall c :: c in cs <==> c in init || c == cs[|cs| - 1];
      TotalOverStep(init, ts);
    }
  }

  lemma {:induction false} TotalOverAppend(cs: seq<string>, c: string, ts: seq<Transaction>)
    ensures TotalOver(cs + [c], ts) == TotalOver(cs, ts) + CategoryExpense(ts, c)
  {
    assert (cs + [c])[..|cs|] == cs;
  }

  /** The totals of the listed categories make up all expenses. */
  lemma {:induction false} OrderTotalIsExpenses(ts: seq<Transaction>)
    ensures TotalOver(ExpenseCategoryOrder(ts), ts) == App.Expenses(ts)
  {
    if ts != [] {
      var init, last := ts[..|ts| - 1], ts[|ts| - 1];
      var order := ExpenseCategoryOrder(init);
      OrderTotalIsExpenses(init);
      OrderFacts(init);
      OrderFacts(ts);
      TotalOverStep(order, ts);
      App.ExpensesStep(ts);
      if IsExpense(last) {
        if last.category !in order {
          TotalOverAppend(order, last.category, ts);
          assert CategoryExpense(init, last.category) == 0.0;
        }
      }
    }
  }

  lemma {:induction false} SliceTotalOfSpec(ts: seq<Transaction>, n: nat)
    requires n <= |ExpenseCategoryOrder(ts)|
    ensures SliceTotal(PieSpec(ts)[..n]) == TotalOver(ExpenseCategoryOrder(ts)[..n], ts)
  {
    if n > 0 {
      SliceTotalOfSpec(ts, n - 1);
      assert PieSpec(ts)[..n][..n - 1] == PieSpec(ts)[..n - 1];
      assert ExpenseCategoryOrder(ts)[..n][..n - 1] == ExpenseCategoryOrder(ts)[..n - 1];
    }
  }

  /** The slices together add up to the totals of the ordered categories. */
  lemma SpecTotal(ts: seq<Transaction>)
    ensures SliceTotal(PieSpec(ts)) == TotalOver(ExpenseCategoryOrder(ts), ts)
  {
    var order := ExpenseCategoryOrder(ts);
    SliceTotalOfSpec(ts, |order|);
    assert PieSpec(ts)[..|order|] == PieSpec(ts);
    assert order[..|order|] == order;
  }

  /** A slice is named after a category exactly when that category is in the
      expense order. */
  lemma SlicesNamedByOrder(ts: seq<Transaction>)
    ensures forall c :: HasSlice(PieSpec(ts), c) <==> c in ExpenseCategoryOrder(ts)
  {
    var order := ExpenseCategoryOrder(ts);
    forall c
      ensures HasSlice(PieSpec(ts), c) <==> c in order
    {
      if c in order {
        var i :| 0 <= i < |order| && order[i] == c;
        assert PieSpec(ts)[i].name == c;
      }
    }
  }

  /** The slices: one per category with an expense, no category twice, each
      value positive, all values together equal to the App's `expenses`
      figure, and no slice at all exactly when there is no negative amount. */
  lemma PieProperties(ts: seq<Transaction>)
    ensures forall i, j :: 0 <= i < j < |PieSpec(ts)| ==> PieSpec(ts)[i].name != PieSpec(ts)[j].name
    ensures forall i :: 0 <= i < |PieSpec(ts)| ==> PieSpec(ts)[i].value > 0.0
    ensures forall c :: HasSlice(PieSpec(ts), c) <==> HasExpense(ts, c)
    ensures SliceTotal(PieSpec(ts)) == App.Expenses(ts)
    ensures PieSpec(ts) == [] <==> forall k :: 0 <= k < |ts| ==> ts[k].amount >= 0.0
  {
    var order := ExpenseCategoryOrder(ts);
    OrderFacts(ts);
    OrderTotalIsExpenses(ts);
    SpecTotal(ts);
    SlicesNamedByOrder(ts);
    if PieSpec(ts) != [] {
      assert order[0] in order;
    } else {
      forall k | 0 <= k < |ts|
        ensures ts[k].amount >= 0.0
      {
        assert !HasExpense(ts, ts[k].category);
      }
    }
  }

  /** The chart data: one pass over the transactions that adds the magnitude
      of each negative amount to its category's entry in a Map (appending the
      category on its first expense), then the Map's entries in order. */
  method PieData(ts: seq<Transaction>) returns (data: seq<Slice>)
    ensures data == PieSpec(ts)
  {
    var keys: seq<string> := [];
    var values: map<string, real> := map[];
    for i := 0 to |ts|
      invariant keys == ExpenseCategoryOrder(ts[..i])
      invariant forall c :: c in values <==> c in keys
      invariant forall c :: c in values ==> values[c] == CategoryExpense(ts[..i], c)
    {
      assert ts[..i + 1][..i] == ts[..i];
      var tx := ts[i];
      if tx.amount < 0.0 {
        var before := if tx.category in values then values[tx.category] else 0.0;
        if tx.category !in keys {
          OrderFacts(ts[..i]);
          keys := keys + [tx.category];
        }
        values := values[tx.category := before + Abs(tx.amount)];
      }
    }
    assert ts[..|ts|] == ts;
    data := seq(|keys|, i requires 0 <= i < |keys| => Slice(keys[i], values[keys[i]]));
  }
}
