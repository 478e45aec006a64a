/**
 * The add-transaction form (my-app/src/components/TransactionForm.tsx): four
 * text fields, a submitting flag, and the submit handler with the client's
 * copy of the sign rule. Each `onSubmit` call is recorded in `submitted`.
 */
module TransactionForm {
  import opened Wrappers
  import opened Js
  import TransactionController

  /** The client's copy of the categories treated as outflows. */
  const ClientExpenseCategories: seq<string> := ["Food", "Travel", "Entertainment", "Shopping", "Bills"]

  /** The payload handed to `onSubmit`. */
  datatype Submission = Submission(description: string, amount: Num, date: string, category: string)

  /** `isExpense ? -Math.abs(amt) : Math.abs(amt)` on a JavaScript number. */
  function ClientFinalAmount(amt: Num, category: string): (r: Num)
    ensures r.Finite? <==> amt.Finite?
    ensures r.Finite? && category in ClientExpenseCategories ==> r.value <= 0.0
    ensures r.Finite? && category !in ClientExpenseCategories ==> r.value >= 0.0
  {
    if category in ClientExpenseCategories then Negate(AbsNum(amt)) else AbsNum(amt)
  }

  /** The client and the server use the same expense set, so for every finite
      amount and every category the client's sign is the server's, and the
      server's rule leaves an amount the client normalised unchanged. */
  lemma ClientMatchesServer(a: real, category: string)
    ensures ClientExpenseCategories == TransactionController.ExpenseCategories
    ensures ClientFinalAmount(Finite(a), category) == Finite(TransactionController.FinalAmount(a, category))
    ensures var c := ClientFinalAmount(Finite(a), category).value;
      TransactionController.FinalAmount(c, category) == c
  {
    TransactionController.FinalAmountIdempotent(a, category);
  }

  class Form {
    var description: string
    var amount: string
    var date: string
    var category: string
    var isSubmitting: bool
    /** The `onSubmit` calls made so far. */
    var submitted: seq<Submission>

    /** Empty fields, category "Food", not submitting. */
    constructor ()
      ensures description == "" && amount == "" && date == "" && category == "Food"
      ensures !isSubmitting && submitted == []
    {
      description := "";
      amount := "";
      date := "";
      category := "Food";
      isSubmitting := false;
      submitted := [];
    }

    /** The first half of `handleSubmit`, up to the delay: with an empty
        description, amount or date it does nothing; otherwise it sets
        `isSubmitting` and returns the payload built from the fields as they
        are now, the amount read with unary `+` and signed by category. */
    method BeginSubmit() returns (pending: Option<Submission>)
      modifies this
      ensures (old(description) == "" || old(amount) == "" || old(date) == "") <==> pending.None?
      ensures pending.None? ==> isSubmitting == old(isSubmitting)
      ensures pending.Some? ==>
        && isSubmitting
        && pending.value == Submission(old(description),
             ClientFinalAmount(StringToNumber(old(amount)), old(category)), old(date), old(category))
      ensures description == old(description) && amount == old(amount) && date == old(date)
      ensures category == old(category) && submitted == old(submitted)
    {
      if description == "" || amount == "" || date == "" {
        return None;
      }
      isSubmitting := true;
      var amt := StringToNumber(amount);
      var finalAmount := ClientFinalAmount(amt, category);
      pending := Some(Submission(description, finalAmount, date, category));
    }

    /** The second half, after the delay: hand the payload to `onSubmit`,
        reset the fields to their initial values and clear `isSubmitting`. */
    method FinishSubmit(payload: Submission)
      modifies this
      ensures submitted == old(submitted) + [payload]
      ensures description == "" && amount == "" && date == "" && category == "Food"
      ensures !isSubmitting
    {
      submitted := submitted + [payload];
      description := "";
      amount := "";
      date := "";
      category := "Food";
      isSubmitting := false;
    }

    /** `handleSubmit` run to completion: a guarded submit records exactly one
        payload and leaves the form as it started; a rejected one changes nothing. */
    method HandleSubmit()
      modifies this
      ensures old(description) == "" || old(amount) == "" || old(date) == "" ==>
        && submitted == old(submitted) && isSubmitting == old(isSubmitting)
        && description == old(description) && amount == old(amount)
        && date == old(date) && category == old(category)
      ensures old(description) != "" && old(amount) != "" && old(date) != "" ==>
        && submitted == old(submitted) + [Submission(old(description),
             ClientFinalAmount(StringToNumber(old(amount)), old(category)), old(date), old(category))]
        && description == "" && amount == "" && date == "" && category == "Food" && !isSubmitting
    {
      var pending := BeginSubmit();
      if pending.Some? {
        FinishSubmit(pending.value);
      }
    }
  }
}
