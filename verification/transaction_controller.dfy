/**
 * The transaction REST handlers (server/controllers/transactionController.ts):
 * the server's sign rule on create, and list, delete and update over the
 * transaction collection, which is held here as an in-memory store.
 */
module TransactionController {
  import opened Wrappers
  import opened Js
  import opened Domain
  import Categories

  /** The categories the server treats as outflows. */
  const ExpenseCategories: seq<string> := ["Food", "Travel", "Entertainment", "Shopping", "Bills"]

  /** The sign rule: an expense category forces `-|amount|`, every other
      category `|amount|`. The three clauses pin the result down completely. */
  function FinalAmount(amount: real, category: string): (r: real)
    ensures category in ExpenseCategories ==> r <= 0.0
    ensures category !in ExpenseCategories ==> r >= 0.0
    ensures Abs(r) == Abs(amount)
  {
    if category in ExpenseCategories then -Abs(amount) else Abs(amount)
  }

  /** Normalising an already normalised amount changes nothing. */
  lemma FinalAmountIdempotent(amount: real, category: string)
    ensures FinalAmount(FinalAmount(amount, category), category) == FinalAmount(amount, category)
  {
  }

  /** A record whose sign already follows the rule for its category. */
  predicate SignNormalised(t: Transaction) {
    t.amount == FinalAmount(t.amount, t.category)
  }

  /** Of the offered categories, exactly Income, Housing, Transport and
      Healthcare fall outside the expense set, so amounts in them are always
      stored non-negative; "Travel" is in the expense set but never offered. */
  lemma OfferedCategoriesOutsideExpenseSet(amount: real, category: string)
    requires category in Categories.Categories && category !in ExpenseCategories
    ensures category == "Income" || category == "Housing" || category == "Transport" || category == "Healthcare"
    ensures FinalAmount(amount, category) == Abs(amount)
    ensures "Travel" in ExpenseCategories && "Travel" !in Categories.Categories
  {
  }

  /** The request body of `POST /api/transactions`, as far as the handler reads it. */
  datatype AddRequest = AddRequest(description: Option<string>, amount: Value, date: Option<Date>, category: Option<string>)

  /** `expenseCategories.includes(category) ? -Math.abs(amount) : Math.abs(amount)`
      on the raw request value (Math.abs converts it with Number first). */
  function RequestFinalAmount(amount: Value, category: Option<string>): (r: Num)
    ensures r.Finite? <==> ToNumber(amount).Finite?
    ensures r.Finite? ==> r.value == FinalAmount(ToNumber(amount).value, category.GetOr(""))
  {
    var magnitude := AbsNum(ToNumber(amount));
    if category.Some? && category.value in ExpenseCategories then Negate(magnitude) else magnitude
  }

  /** The schema's checks on save: every field is required (an empty string
      fails the check) and the amount must be a number. */
  predicate Storable(request: AddRequest) {
    && request.description.Some? && request.description.value != ""
    && RequestFinalAmount(request.amount, request.category).Finite?
    && request.date.Some?
    && request.category.Some? && request.category.value != ""
  }

  /** The answer of `POST /api/transactions`: 201 with the record, or 400. */
  datatype AddResponse = Created(tx: Transaction) | BadRequest

  /** The body of `PUT /api/transactions/:id`: the fields it sets. */
  datatype Patch = Patch(description: Option<string>, amount: Option<real>, date: Option<Date>, category: Option<string>)

  /** The record after an update: each given field is written through as is. */
  function ApplyPatch(t: Transaction, p: Patch): (u: Transaction)
    ensures u.id == t.id
  {
    Transaction(
      t.id,
      p.description.GetOr(t.description),
      p.amount.GetOr(t.amount),
      p.date.GetOr(t.date),
      p.category.GetOr(t.category))
  }

  /** An update writes the amount through without the sign rule, so a
      positive amount in an expense category is stored as it was sent. */
  lemma UpdateBypassesSignRule(t: Transaction, amount: real)
    requires t.category in ExpenseCategories && amount > 0.0
    ensures ApplyPatch(t, Patch(None, Some(amount), None, None)).amount == amount
    ensures FinalAmount(amount, t.category) == -amount
  {
  }

  /** Newest first: no record is older than one after it. */
  predicate NewestFirst(ts: seq<Transaction>) {
    forall i, j :: 0 <= i < j < |ts| ==> NotLater(ts[j].date, ts[i].date)
  }

  /** Place `t` in a newest-first list before the first record not newer than it. */
  function InsertByDate(t: Transaction, sorted: seq<Transaction>): (r: seq<Transaction>)
    requires NewestFirst(sorted)
    ensures NewestFirst(r)
    ensures multiset(r) == multiset(sorted) + multiset{t}
  {
    if sorted == [] then [t]
    else if NotLater(sorted[0].date, t.date) then
      HeadBoundsAll(sorted, t.date);
      ConsNewestFirst(t, sorted);
      [t] + sorted
    else
      var rest := InsertByDate(t, sorted[1..]);
      RestBoundedByHead(t, sorted, rest);
      ConsNewestFirst(sorted[0], rest);
      assert sorted == [sorted[0]] + sorted[1..];
      [sorted[0]] + rest
  }

  /** A record no older than every record of a newest-first list can go in front of it. */
  lemma ConsNewestFirst(u: Transaction, ts: seq<Transaction>)
    requires NewestFirst(ts)
    requires forall v :: v in ts ==> NotLater(v.date, u.date)
    ensures NewestFirst([u] + ts)
  {
    forall i, j | 0 <= i < j < |[u] + ts|
      ensures NotLater(([u] + ts)[j].date, ([u] + ts)[i].date)
    {
      assert ([u] + ts)[j] == ts[j - 1];
      if i > 0 {
        assert ([u] + ts)[i] == ts[i - 1];
      } else {
        assert ts[j - 1] in ts;
      }
    }
  }

  /** In a newest-first list, a date no older than the head is no older than any record. */
  lemma HeadBoundsAll(ts: seq<Transaction>, d: Date)
    requires NewestFirst(ts) && ts != [] && NotLater(ts[0].date, d)
    ensures forall v :: v in ts ==> NotLater(v.date, d)
  {
    forall v | v in ts
      ensures NotLater(v.date, d)
    {
      var j :| 0 <= j < |ts| && ts[j] == v;
      if j > 0 {
        assert NotLater(ts[j].date, ts[0].date);
      }
    }
  }

  /** When `t` is older than the head, inserting it into the tail gives a list
      whose records are all no newer than the head. */
  lemma RestBoundedByHead(t: Transaction, sorted: seq<Transaction>, rest: seq<Transaction>)
    requires NewestFirst(sorted) && sorted != [] && !NotLater(sorted[0].date, t.date)
    requires multiset(rest) == multiset(sorted[1..]) + multiset{t}
    ensures forall v :: v in rest ==> NotLater(v.date, sorted[0].date)
  {
    forall v | v in rest
      ensures NotLater(v.date, sorted[0].date)
    {
      assert v in multiset(rest);
      if v != t {
        assert v in multiset(sorted[1..]);
        var j :| 0 <= j < |sorted[1..]| && sorted[1..][j] == v;
        assert sorted[j + 1] == v;
      }
    }
  }

  /** Appending a record whose id is at least every stored id keeps the ids
      unique, and every id stays below the next one handed out. */
  lemma AppendFreshId(ts: seq<Transaction>, t: Transaction, nextId: Id)
    requires IdsUnique(ts)
    requires forall i :: 0 <= i < |ts| ==> ts[i].id < nextId
    requires t.id == nextId
    ensures IdsUnique(ts + [t])
    ensures forall i :: 0 <= i < |ts + [t]| ==> (ts + [t])[i].id < nextId + 1
  {
    forall i | 0 <= i < |ts|
      ensures (ts + [t])[i] == ts[i]
    {
    }
  }

  /** A stored record built from a request carries the sign rule's amount,
      so it is sign-normalised. */
  lemma StoredIsNormalised(request: AddRequest, id: Id)
    requires Storable(request)
    ensures SignNormalised(Transaction(
      id, request.description.value,
      RequestFinalAmount(request.amount, request.category).value,
      request.date.value, request.category.value))
  {
    FinalAmountIdempotent(ToNumber(request.amount).value, request.category.value);
  }

  class TransactionStore {
    /** The transaction collection. */
    var records: seq<Transaction>
    /** The next id the store hands out. */
    var nextId: Id

    ghost predicate Valid()
      reads this
    {
      && IdsUnique(records)
      && forall i :: 0 <= i < |records| ==> records[i].id < nextId
    }

    constructor ()
      ensures Valid() && records == []
    {
      records := [];
      nextId := 0;
    }

    /** `GET /api/transactions`: every record, sorted by date, newest first. */
    method GetTransactions() returns (list: seq<Transaction>)
      ensures NewestFirst(list)
      ensures multiset(list) == multiset(records)
    {
      list := [];
      for i := 0 to |records|
        invariant NewestFirst(list)
        invariant multiset(list) == multiset(records[..i])
      {
        assert records[..i + 1] == records[..i] + [records[i]];
        list := InsertByDate(records[i], list);
      }
      assert records[..|records|] == records;
    }

    /** `POST /api/transactions`: apply the sign rule, then save a new record
        (201) or answer 400 when the schema refuses it. */
    method AddTransaction(request: AddRequest) returns (response: AddResponse)
      requires Valid()
      modifies this
      ensures Valid()
      ensures !Storable(request) ==> response == BadRequest && records == old(records)
      ensures Storable(request) ==>
        && response.Created?
        && response.tx == Transaction(
             old(nextId), request.description.value,
             RequestFinalAmount(request.amount, request.category).value,
             request.date.value, request.category.value)
        && records == old(records) + [response.tx]
      ensures response.Created? ==> SignNormalised(response.tx)
    {
      var finalAmount := RequestFinalAmount(request.amount, request.category);
      if !Storable(request) {
        response := BadRequest;
        return;
      }
      var tx := Transaction(nextId, request.description.value, finalAmount.value, request.date.value, request.category.value);
      AppendFreshId(records, tx, nextId);
      StoredIsNormalised(request, nextId);
      records := records + [tx];
      nextId := nextId + 1;
      response := Created(tx);
    }

    /** `DELETE /api/transactions/:id`: remove the record with that id, if
        any, and answer 204 either way. */
    method DeleteTransaction(id: Id) returns (status: int)
      requires Valid()
      modifies this
      ensures Valid() && nextId == old(nextId)
      ensures status == 204
      ensures records == RemoveId(old(records), id)
      ensures FindId(old(records), id).None? ==> records == old(records)
      ensures FindId(old(records), id).Some? ==> |records| == |old(records)| - 1
    {
      var k := FindId(records, id);
      if k.Some? {
        RemoveUniqueId(records, k.value);
        RemoveIdKeepsUnique(records, id);
        records := records[..k.value] + records[k.value + 1..];
      } else {
        RemoveAbsentId(records, id);
      }
      status := 204;
    }

    /** `PUT /api/transactions/:id`: write the given fields into the record
        with that id, with no sign rule and no validation; answer the updated
        record, or null when there is none. */
    method UpdateTransaction(id: Id, patch: Patch) returns (updated: Option<Transaction>)
      requires Valid()
      modifies this
      ensures Valid() && nextId == old(nextId)
      ensures FindId(old(records), id).None? ==> updated == None && records == old(records)
      ensures FindId(old(records), id).Some? ==>
        var k := FindId(old(records), id).value;
        && records == old(records)[k := ApplyPatch(old(records)[k], patch)]
        && updated == Some(records[k])
    {
      var k := FindId(records, id);
      if k.None? {
        updated := None;
        return;
      }
      var u := ApplyPatch(records[k.value], patch);
      records := records[k.value := u];
      updated := Some(u);
    }
  }
}
