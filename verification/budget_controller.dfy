/**
 * The budget REST handlers (server/controllers/budgetController.ts): a
 * validated upsert keyed by (category, month, year), and a lookup of one
 * month's budgets. The budget collection is held as an in-memory store.
 */
module BudgetController {
  import opened Wrappers
  import opened Js

  /** A stored budget (server/models/Budget.ts); month and year are plain numbers. */
  datatype Budget = Budget(category: string, amount: real, month: real, year: real)

  /** Two budgets that an upsert treats as the same record. */
  predicate SameKey(a: Budget, b: Budget) {
    a.category == b.category && a.month == b.month && a.year == b.year
  }

  /** No two records share a (category, month, year) key. */
  predicate KeysUnique(rs: seq<Budget>) {
    forall i, j :: 0 <= i < j < |rs| ==> !SameKey(rs[i], rs[j])
  }

  /** A string field of the body is converted with `Number`; others pass
      through. Afterwards no field is a string, and a string or number field
      holds what `Number` makes of it. */
  function Coerce(v: Value): (c: Value)
    ensures !c.Str?
    ensures v.Str? || v.Number? ==> c == Number(ToNumber(v))
    ensures !v.Str? ==> c == v
  {
    if v.Str? then Number(StringToNumber(v.s)) else v
  }

  /** The budget a `POST /api/budgets` body describes, or None when it fails
      validation: the category must be a string, and amount, month and year
      must each be a number or a string that `Number` reads as a number other
      than NaN. Any other value (null, a boolean, an object, a missing field)
      is refused, although `Number` would read some of them as numbers. No
      range is checked. */
  function Validate(category: Value, amount: Value, month: Value, year: Value): (b: Option<Budget>)
    ensures b.Some? <==>
      && category.Str?
      && (amount.Str? || amount.Number?) && ToNumber(amount).Finite?
      && (month.Str? || month.Number?) && ToNumber(month).Finite?
      && (year.Str? || year.Number?) && ToNumber(year).Finite?
    ensures b.Some? ==>
      b.value == Budget(category.s, ToNumber(amount).value, ToNumber(month).value, ToNumber(year).value)
  {
    var a, m, y := Coerce(amount), Coerce(month), Coerce(year);
    if !category.Str? || !IsFiniteNumber(a) || !IsFiniteNumber(m) || !IsFiniteNumber(y) then None
    else Some(Budget(category.s, a.n.value, m.n.value, y.n.value))
  }

  /** A body whose amount, month and year arrive as decimal strings, as a
      form sends them, is read back exactly. */
  lemma ValidateRendered(category: string, amount: nat, month: nat, year: nat)
    ensures Validate(Str(category), Str(NatToString(amount)), Str(NatToString(month)), Str(NatToString(year)))
         == Some(Budget(category, amount as real, month as real, year as real))
  {
    NatRoundTrip(amount);
    NatRoundTrip(month);
    NatRoundTrip(year);
  }

  /** Mongoose's `required` check on the schema's string field: an empty
      category is refused when the document is saved. */
  predicate SchemaAccepts(b: Budget) {
    b.category != ""
  }

  /** Any numeric month, year and amount pass, even outside 1..12 or negative. */
  lemma NoRangeCheck(category: string, amount: real, month: real, year: real)
    ensures Validate(Str(category), Number(Finite(amount)), Number(Finite(month)), Number(Finite(year)))
         == Some(Budget(category, amount, month, year))
  {
  }

  /** `Budget.findOne({category, month, year})`: the first record with the key of `b`. */
  function FindKey(rs: seq<Budget>, b: Budget): (k: Option<nat>)
    ensures k.Some? ==> k.value < |rs| && SameKey(rs[k.value], b)
    ensures k.Some? ==> forall i :: 0 <= i < k.value ==> !SameKey(rs[i], b)
    ensures k.None? ==> forall i :: 0 <= i < |rs| ==> !SameKey(rs[i], b)
  {
    if rs == [] then None
    else if SameKey(rs[0], b) then Some(0)
    else
      match FindKey(rs[1..], b)
      case Some(k) => Some(k + 1)
      case None => None
  }

  /** The store after an upsert of `b`. */
  function Upsert(rs: seq<Budget>, b: Budget): seq<Budget> {
    match FindKey(rs, b)
    case Some(k) => rs[k := rs[k].(amount := b.amount)]
    case None => rs + [b]
  }

  /** An upsert overwrites only the amount of an existing record with the same
      key, leaving the count and every other record as they were; otherwise it
      appends exactly one record with the given fields. Either way the key now
      holds `b`, and unique keys stay unique. */
  lemma UpsertEffect(rs: seq<Budget>, b: Budget)
    ensures FindKey(rs, b).Some? ==>
      var k := FindKey(rs, b).value;
      && |Upsert(rs, b)| == |rs|
      && Upsert(rs, b)[k] == b
      && forall i :: 0 <= i < |rs| && i != k ==> Upsert(rs, b)[i] == rs[i]
    ensures FindKey(rs, b).None? ==> Upsert(rs, b) == rs + [b]
    ensures KeysUnique(rs) ==> KeysUnique(Upsert(rs, b))
  {
  }

  /** The number of records with the key of `b`. */
  function CountKey(rs: seq<Budget>, b: Budget): nat {
    if rs == [] then 0 else (if SameKey(rs[0], b) then 1 else 0) + CountKey(rs[1..], b)
  }

  lemma {:induction false} CountKeyNone(rs: seq<Budget>, b: Budget)
    requires forall i :: 0 <= i < |rs| ==> !SameKey(rs[i], b)
    ensures CountKey(rs, b) == 0
  {
    if rs != [] {
      CountKeyNone(rs[1..], b);
    }
  }

  lemma {:induction false} CountKeyAppend(rs: seq<Budget>, x: Budget, b: Budget)
    ensures CountKey(rs + [x], b) == CountKey(rs, b) + (if SameKey(x, b) then 1 else 0)
  {
    if rs != [] {
      assert (rs + [x])[1..] == rs[1..] + [x];
      CountKeyAppend(rs[1..], x, b);
    }
  }

  lemma {:induction false} CountKeyUpdate(rs: seq<Budget>, k: nat, x: Budget, b: Budget)
    requires k < |rs| && SameKey(rs[k], x)
    ensures CountKey(rs[k := x], b) == CountKey(rs, b)
  {
    if k > 0 {
      assert rs[k := x][1..] == rs[1..][k - 1 := x];
      CountKeyUpdate(rs[1..], k - 1, x, b);
    }
  }

  /** Posting the same key twice leaves exactly one record with that key, and
      it holds the later amount; nothing else is added. */
  lemma TwoPostsOneRecord(rs: seq<Budget>, b1: Budget, b2: Budget)
    requires KeysUnique(rs) && SameKey(b1, b2)
    ensures var after := Upsert(Upsert(rs, b1), b2);
      && CountKey(after, b2) == 1
      && FindKey(after, b2).Some? && after[FindKey(after, b2).value] == b2
      && |after| == |Upsert(rs, b1)|
  {
    var mid := Upsert(rs, b1);
    UpsertEffect(rs, b1);
    UpsertEffect(mid, b2);
    var after := Upsert(mid, b2);
    var j := if FindKey(rs, b1).Some? then FindKey(rs, b1).value else |rs|;
    assert j < |mid| && SameKey(mid[j], b2);
    var k2 := FindKey(mid, b2).value;
    match FindKey(rs, b1)
    case Some(k) =>
      CountKeyNone(rs[..k], b2);
      assert CountKey(rs[..k + 1], b2) == 1 by {
        assert rs[..k + 1] == rs[..k] + [rs[k]];
        CountKeyAppend(rs[..k], rs[k], b2);
      }
      assert CountKey(rs, b2) == 1 by {
        CountKeyNone(rs[k + 1..], b2);
        CountKeySplit(rs, k + 1, b2);
      }
      CountKeyUpdate(rs, k, mid[k], b2);
      CountKeyUpdate(mid, k2, after[k2], b2);
    case None =>
      CountKeyNone(rs, b2);
      CountKeyAppend(rs, b1, b2);
      CountKeyUpdate(mid, k2, after[k2], b2);
  }

  lemma {:induction false} CountKeySplit(rs: seq<Budget>, n: nat, b: Budget)
    requires n <= |rs|
    ensures CountKey(rs, b) == CountKey(rs[..n], b) + CountKey(rs[n..], b)
  {
    if n > 0 {
      CountKeySplit(rs[1..], n - 1, b);
      assert rs[1..][..n - 1] == rs[..n][1..];
      assert rs[1..][n - 1..] == rs[n..];
    }
  }

  /** `Budget.find({month, year})`: the records of one period, in store order. */
  function OfPeriod(rs: seq<Budget>, month: real, year: real): (r: seq<Budget>)
    ensures forall b :: b in r <==> b in rs && b.month == month && b.year == year
  {
    if rs == [] then []
    else
      var rest := OfPeriod(rs[1..], month, year);
      assert forall b :: b in rs <==> b == rs[0] || b in rs[1..];
      if rs[0].month == month && rs[0].year == year then [rs[0]] + rest else rest
  }

  /** The answer of `POST /api/budgets`: the saved record, 400 for a body
      that fails validation, or 500 when saving the document throws. */
  datatype SetResponse = Saved(budget: Budget) | SetBadRequest | SetServerError

  /** The answer of `GET /api/budgets`: the period's records, or 400. */
  datatype GetResponse = Found(budgets: seq<Budget>) | GetBadRequest

  class BudgetStore {
    /** The budget collection. */
    var records: seq<Budget>

    constructor ()
      ensures records == []
    {
      records := [];
    }

    /** `POST /api/budgets`: coerce string fields with `Number`, reject an
        invalid body with 400 and no change, then upsert by key. Saving a
        document with an empty category throws, which the handler answers
        with 500, and nothing is stored. */
    method SetBudget(category: Value, amount: Value, month: Value, year: Value) returns (response: SetResponse)
      modifies this
      ensures Validate(category, amount, month, year).None? ==>
        response == SetBadRequest && records == old(records)
      ensures Validate(category, amount, month, year).Some? && !SchemaAccepts(Validate(category, amount, month, year).value) ==>
        response == SetServerError && records == old(records)
      ensures Validate(category, amount, month, year).Some? && SchemaAccepts(Validate(category, amount, month, year).value) ==>
        var b := Validate(category, amount, month, year).value;
        response == Saved(b) && records == Upsert(old(records), b)
      ensures KeysUnique(old(records)) ==> KeysUnique(records)
    {
      var amount, month, year := amount, month, year;
      if amount.Str? { amount := Number(StringToNumber(amount.s)); }
      if month.Str? { month := Number(StringToNumber(month.s)); }
      if year.Str? { year := Number(StringToNumber(year.s)); }
      if !category.Str? || !IsFiniteNumber(amount) || !IsFiniteNumber(month) || !IsFiniteNumber(year) {
        response := SetBadRequest;
        return;
      }
      var b := Budget(category.s, amount.n.value, month.n.value, year.n.value);
      if !SchemaAccepts(b) {
        response := SetServerError;
        return;
      }
      UpsertEffect(records, b);
      var existing := FindKey(records, b);
      if existing.Some? {
        var k := existing.value;
        records := records[k := records[k].(amount := b.amount)];
        response := Saved(records[k]);
        return;
      }
      records := records + [b];
      response := Saved(b);
    }

    /** `GET /api/budgets?month=&year=`: 400 when either parameter is missing,
        empty or not a number; otherwise exactly the records of that period. */
    method GetBudgets(month: Value, year: Value) returns (response: GetResponse)
      ensures (Falsy(month) || Falsy(year) || ToNumber(month) == NaN || ToNumber(year) == NaN) <==> response == GetBadRequest
      ensures response.Found? ==>
        forall b :: b in response.budgets <==>
          b in records && Finite(b.month) == ToNumber(month) && Finite(b.year) == ToNumber(year)
    {
      var monthNum := ToNumber(month);
      var yearNum := ToNumber(year);
      if Falsy(month) || Falsy(year) || monthNum == NaN || yearNum == NaN {
        response := GetBadRequest;
        return;
      }
      response := Found(OfPeriod(records, monthNum.value, yearNum.value));
    }
  }
}
