/**
 * The stored transaction record (server/models/Transaction.ts) with its date
 * already decoded into calendar fields, and the operations on transaction
 * lists that both the server and the client use.
 */
module Domain {
  import opened Wrappers

  /** A calendar month, 1 = January. */
  type Month = m: int | 1 <= m <= 12 witness 1

  datatype Date = Date(year: int, month: Month, day: int)

  /** The document id the store assigns. */
  type Id = nat

  datatype Transaction = Transaction(id: Id, description: string, amount: real, date: Date, category: string)

  function Abs(x: real): (r: real)
    ensures r >= 0.0 && (r == x || r == -x)
  {
    if x < 0.0 then -x else x
  }

  /** `date.getMonth()`: 0 = January, ..., 11 = December. */
  function MonthIndex(d: Date): (i: int)
    ensures 0 <= i < 12
  {
    d.month - 1
  }

  /** `a` is not later than `b`, comparing year, then month, then day. */
  predicate NotLater(a: Date, b: Date) {
    a.year < b.year || (a.year == b.year && (a.month < b.month || (a.month == b.month && a.day <= b.day)))
  }

  /** No two records share an id. */
  predicate IdsUnique(ts: seq<Transaction>) {
    forall i, j :: 0 <= i < j < |ts| ==> ts[i].id != ts[j].id
  }

  /** `ts.filter(tx => tx._id !== id)`: every record without that id, in order. */
  function RemoveId(ts: seq<Transaction>, id: Id): (r: seq<Transaction>)
    ensures |r| <= |ts|
  {
    if ts == [] then []
    else
      var rest := RemoveId(ts[..|ts| - 1], id);
      if ts[|ts| - 1].id != id then rest + [ts[|ts| - 1]] else rest
  }

  /** The filtered list holds exactly the records without that id. */
  lemma {:induction false} RemoveIdMembers(ts: seq<Transaction>, id: Id)
    ensures forall t :: t in RemoveId(ts, id) <==> t in ts && t.id != id
  {
    if ts != [] {
      var init, last := ts[..|ts| - 1], ts[|ts| - 1];
      RemoveIdMembers(init, id);
      assert forall t :: t in ts <==> t in init || t == last;
    }
  }

  /** The position of the first record with that id, as a store lookup by id finds it. */
  function FindId(ts: seq<Transaction>, id: Id): (k: Option<nat>)
    ensures k.Some? ==> k.value < |ts| && ts[k.value].id == id
    ensures k.None? ==> forall i :: 0 <= i < |ts| ==> ts[i].id != id
  {
    if ts == [] then None
    else if ts[0].id == id then Some(0)
    else
      match FindId(ts[1..], id)
      case Some(k) => Some(k + 1)
      case None => None
  }

  /** Filtering out one id keeps the remaining ids unique. */
  lemma {:induction false} RemoveIdKeepsUnique(ts: seq<Transaction>, id: Id)
    requires IdsUnique(ts)
    ensures IdsUnique(RemoveId(ts, id))
  {
    if ts != [] {
      var init := ts[..|ts| - 1];
      var last := ts[|ts| - 1];
      assert IdsUnique(init);
      RemoveIdKeepsUnique(init, id);
      var rest := RemoveId(init, id);
      RemoveIdMembers(init, id);
      forall t | t in rest
        ensures t.id != last.id
      {
        assert t in init;
      }
    }
  }

  /** Removing an id that is not present changes nothing. */
  lemma {:induction false} RemoveAbsentId(ts: seq<Transaction>, id: Id)
    requires forall i :: 0 <= i < |ts| ==> ts[i].id != id
    ensures RemoveId(ts, id) == ts
  {
    if ts != [] {
      RemoveAbsentId(ts[..|ts| - 1], id);
      assert ts[..|ts| - 1] + [ts[|ts| - 1]] == ts;
    }
  }

  /** Filtering a concatenation filters each part. */
  lemma {:induction false} RemoveIdAppend(a: seq<Transaction>, b: seq<Transaction>, id: Id)
    ensures RemoveId(a + b, id) == RemoveId(a, id) + RemoveId(b, id)
  {
    if b == [] {
      assert a + b == a;
    } else {
      var b' := b[..|b| - 1];
      assert (a + b)[..|a + b| - 1] == a + b';
      assert (a + b)[|a + b| - 1] == b[|b| - 1];
      RemoveIdAppend(a, b', id);
    }
  }

  /** A single record with the removed id leaves nothing. */
  lemma RemoveOnly(t: Transaction)
    ensures RemoveId([t], t.id) == []
  {
    assert [t][..0] == [];
  }

  /** With unique ids, the records before and after `k` keep their ids. */
  lemma OthersKept(ts: seq<Transaction>, k: nat)
    requires IdsUnique(ts) && k < |ts|
    ensures RemoveId(ts[..k], ts[k].id) == ts[..k]
    ensures RemoveId(ts[k + 1..], ts[k].id) == ts[k + 1..]
  {
    var before, after := ts[..k], ts[k + 1..];
    assert forall i :: 0 <= i < |before| ==> before[i].id != ts[k].id by {
      forall i | 0 <= i < |before|
        ensures before[i].id != ts[k].id
      {
        assert before[i] == ts[i];
      }
    }
    assert forall i :: 0 <= i < |after| ==> after[i].id != ts[k].id by {
      forall i | 0 <= i < |after|
        ensures after[i].id != ts[k].id
      {
        assert after[i] == ts[k + 1 + i];
      }
    }
    RemoveAbsentId(before, ts[k].id);
    RemoveAbsentId(after, ts[k].id);
  }

  /** Removing the id of a record whose neighbours all differ from it cuts out that record. */
  lemma CutOut(before: seq<Transaction>, t: Transaction, after: seq<Transaction>)
    requires RemoveId(before, t.id) == before && RemoveId(after, t.id) == after
    ensures RemoveId((before + [t]) + after, t.id) == before + after
  {
    RemoveIdAppend(before + [t], after, t.id);
    RemoveIdAppend(before, [t], t.id);
    RemoveOnly(t);
    assert before + [] == before;
  }

  /** A list is its part before `k`, the record at `k`, and its part after `k`. */
  lemma SplitAt(ts: seq<Transaction>, k: nat)
    requires k < |ts|
    ensures ts == (ts[..k] + [ts[k]]) + ts[k + 1..]
  {
    assert ts[..k + 1] == ts[..k] + [ts[k]];
  }

  /** With unique ids, removing the id of the record at `k` cuts out exactly that record. */
  lemma RemoveUniqueId(ts: seq<Transaction>, k: nat)
    requires IdsUnique(ts) && k < |ts|
    ensures RemoveId(ts, ts[k].id) == ts[..k] + ts[k + 1..]
  {
    OthersKept(ts, k);
    SplitAt(ts, k);
    CutOut(ts[..k], ts[k], ts[k + 1..]);
  }
}
