/**
 * The client's top-level state (my-app/src/App.tsx): the transaction list,
 * its add and delete handlers, and the balance, income and expense totals
 * shown on the summary cards.
 */
module App {
  import opened Wrappers
  import opened Domain

  /** `ts.reduce((sum, tx) => sum + tx.amount, 0)`, folded left to right. */
  function Balance(ts: seq<Transaction>): real {
    if ts == [] then 0.0 else Balance(ts[..|ts| - 1]) + ts[|ts| - 1].amount
  }

  /** `ts.reduce((sum, tx) => sum + Math.abs(tx.amount), 0)` */
  function AbsTotal(ts: seq<Transaction>): real {
    if ts == [] then 0.0 else AbsTotal(ts[..|ts| - 1]) + Abs(ts[|ts| - 1].amount)
  }

  /** `ts.filter(tx => tx.amount > 0)` */
  function Credits(ts: seq<Transaction>): (r: seq<Transaction>)
    ensures forall i :: 0 <= i < |r| ==> r[i].amount > 0.0
    ensures forall t :: t in r <==> t in ts && t.amount > 0.0
  {
    if ts == [] then []
    else
      var init, last := ts[..|ts| - 1], ts[|ts| - 1];
      assert forall t :: t in ts <==> t in init || t == last;
      if last.amount > 0.0 then Credits(init) + [last]
      else Credits(init)
  }

  /** `ts.filter(tx => tx.amount < 0)` */
  function Debits(ts: seq<Transaction>): (r: seq<Transaction>)
    ensures forall i :: 0 <= i < |r| ==> r[i].amount < 0.0
    ensures forall t :: t in r <==> t in ts && t.amount < 0.0
  {
    if ts == [] then []
    else
      var init, last := ts[..|ts| - 1], ts[|ts| - 1];
      assert forall t :: t in ts <==> t in init || t == last;
      if last.amount < 0.0 then Debits(init) + [last]
      else Debits(init)
  }

  /** The `income` card: the sum of the strictly positive amounts. */
  function Income(ts: seq<Transaction>): real {
    Balance(Credits(ts))
  }

  /** The `expenses` card: the sum of |amount| over the strictly negative amounts. */
  function Expenses(ts: seq<Transaction>): real {
    AbsTotal(Debits(ts))
  }

  /** A sum of positive amounts is not negative. */
  lemma {:induction false} BalanceOfCreditsNonNegative(ts: seq<Transaction>)
    requires forall i :: 0 <= i < |ts| ==> ts[i].amount > 0.0
    ensures Balance(ts) >= 0.0
  {
    if ts != [] {
      BalanceOfCreditsNonNegative(ts[..|ts| - 1]);
    }
  }

  lemma {:induction false} AbsTotalNonNegative(ts: seq<Transaction>)
    ensures AbsTotal(ts) >= 0.0
  {
    if ts != [] {
      AbsTotalNonNegative(ts[..|ts| - 1]);
    }
  }

  /** Both cards show non-negative figures. */
  lemma IncomeAndExpensesNonNegative(ts: seq<Transaction>)
    ensures Income(ts) >= 0.0 && Expenses(ts) >= 0.0
  {
    BalanceOfCreditsNonNegative(Credits(ts));
    AbsTotalNonNegative(Debits(ts));
  }

  /** One more transaction adds its amount to the income when it is positive. */
  lemma IncomeStep(ts: seq<Transaction>)
    requires ts != []
    ensures var last := ts[|ts| - 1];
      Income(ts) == Income(ts[..|ts| - 1]) + (if last.amount > 0.0 then last.amount else 0.0)
  {
    var init, last := ts[..|ts| - 1], ts[|ts| - 1];
    if last.amount > 0.0 {
      var c := Credits(init);
      assert Credits(ts) == c + [last];
      assert (c + [last])[..|c|] == c;
    }
  }

  /** One more transaction adds its magnitude to the expenses when it is negative. */
  lemma ExpensesStep(ts: seq<Transaction>)
    requires ts != []
    ensures var last := ts[|ts| - 1];
      Expenses(ts) == Expenses(ts[..|ts| - 1]) + (if last.amount < 0.0 then -last.amount else 0.0)
  {
    var init, last := ts[..|ts| - 1], ts[|ts| - 1];
    if last.amount < 0.0 {
      var d := Debits(init);
      assert Debits(ts) == d + [last];
      assert (d + [last])[..|d|] == d;
    }
  }

  /** The balance is income minus expenses. */
  lemma {:induction false} BalanceIsIncomeMinusExpenses(ts: seq<Transaction>)
    ensures Balance(ts) == Income(ts) - Expenses(ts)
  {
    if ts != [] {
      BalanceIsIncomeMinusExpenses(ts[..|ts| - 1]);
      IncomeStep(ts);
      ExpensesStep(ts);
    }
  }

  class AppState {
    /** The `transactions` state, newest additions first. */
    var transactions: seq<Transaction>
    /** The `loading` flag. */
    var loading: bool

    constructor ()
      ensures transactions == [] && loading
    {
      transactions := [];
      loading := true;
    }

    /** The initial fetch: the server's list replaces the state and loading ends. */
    method Loaded(data: seq<Transaction>)
      modifies this
      ensures transactions == data && !loading
    {
      transactions := data;
      loading := false;
    }

    /** `handleAdd`: `created` is the record the POST answered with, or None
        when the request itself was rejected (no answer arrived), so the
        awaited call throws before the state is set and nothing changes. The
        new record goes in front and the rest keep their order. */
    method HandleAdd(created: Option<Transaction>)
      modifies this
      ensures loading == old(loading)
      ensures created.None? ==> transactions == old(transactions)
      ensures created.Some? ==>
        && |transactions| == |old(transactions)| + 1
        && transactions[0] == created.value
        && transactions[1..] == old(transactions)
    {
      if created.None? {
        return;
      }
      transactions := [created.value] + transactions;
    }

    /** `handleDelete`: once the DELETE request has completed (`completed`),
        every record with that id leaves the list and the others keep their
        order; a failed request leaves the list as it was. */
    method HandleDelete(id: Id, completed: bool)
      modifies this
      ensures loading == old(loading)
      ensures !completed ==> transactions == old(transactions)
      ensures completed ==> transactions == RemoveId(old(transactions), id)
      ensures completed ==> forall t :: t in transactions <==> t in old(transactions) && t.id != id
    {
      if !completed {
        return;
      }
      RemoveIdMembers(transactions, id);
      transactions := RemoveId(transactions, id);
    }

    /** The three summary figures of the current state. */
    function Totals(): (r: (real, real, real))
      reads this
      ensures r.0 == r.1 - r.2 && r.1 >= 0.0 && r.2 >= 0.0
    {
      BalanceIsIncomeMinusExpenses(transactions);
      IncomeAndExpensesNonNegative(transactions);
      (Balance(transactions), Income(transactions), Expenses(transactions))
    }
  }
}
