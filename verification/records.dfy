/**
 * A JavaScript `Record<string, number>` (the client's budget map): an ordered
 * list of key/value entries, since `Object.values` walks keys in insertion
 * order and spreading `{...prev, [k]: v}` keeps the position of an existing key.
 */
module Records {
  import opened Wrappers

  datatype Entry = Entry(key: string, value: real)

  type Record = seq<Entry>

  /** An object never holds the same key twice. */
  predicate KeysUnique(r: Record) {
    forall i, j :: 0 <= i < j < |r| ==> r[i].key != r[j].key
  }

  predicate HasKey(r: Record, k: string) {
    exists e :: e in r && e.key == k
  }

  /** `r[k]`: the value stored under `k`, if any. */
  function Get(r: Record, k: string): (v: Option<real>)
    ensures v.Some? <==> HasKey(r, k)
    ensures v.Some? ==> Entry(k, v.value) in r
  {
    if r == [] then None
    else if r[0].key == k then Some(r[0].value)
    else
      assert forall e :: e in r <==> e == r[0] || e in r[1..];
      Get(r[1..], k)
  }

  /** `r[k] || 0`: the stored value, or 0 when the key is absent. */
  function Lookup(r: Record, k: string): real {
    Get(r, k).GetOr(0.0)
  }

  /** `{...r, [k]: v}`: overwrite the entry of `k` in place, or append it. */
  function Set(r: Record, k: string, v: real): (r': Record)
    ensures Get(r', k) == Some(v)
    ensures forall k' :: k' != k ==> Get(r', k') == Get(r, k')
  {
    if r == [] then [Entry(k, v)]
    else if r[0].key == k then [Entry(k, v)] + r[1..]
    else [r[0]] + Set(r[1..], k, v)
  }

  /** Every entry after the update is the new one or was there before. */
  lemma {:induction false} SetMembers(r: Record, k: string, v: real)
    ensures forall e :: e in Set(r, k, v) ==> e.key == k || e in r
  {
    if r != [] && r[0].key != k {
      SetMembers(r[1..], k, v);
    }
  }

  /** An entry whose key no later entry has can go in front of a repeat-free record. */
  lemma ConsUnique(x: Entry, r: Record)
    requires KeysUnique(r)
    requires forall e :: e in r ==> e.key != x.key
    ensures KeysUnique([x] + r)
  {
    forall i, j | 0 <= i < j < |[x] + r|
      ensures ([x] + r)[i].key != ([x] + r)[j].key
    {
      assert ([x] + r)[j] == r[j - 1];
      if i == 0 {
        assert r[j - 1] in r;
      }
    }
  }

  /** The tail of a repeat-free record holds no entry with the head's key. */
  lemma TailLacksHead(r: Record)
    requires KeysUnique(r) && r != []
    ensures KeysUnique(r[1..])
    ensures forall e :: e in r[1..] ==> e.key != r[0].key
  {
    forall e | e in r[1..]
      ensures e.key != r[0].key
    {
      var j :| 0 <= j < |r[1..]| && r[1..][j] == e;
      assert r[j + 1] == e;
    }
  }

  /** The update never introduces a second entry for a key. */
  lemma {:induction false} SetKeepsUnique(r: Record, k: string, v: real)
    requires KeysUnique(r)
    ensures KeysUnique(Set(r, k, v))
  {
    if r != [] {
      TailLacksHead(r);
      if r[0].key != k {
        SetKeepsUnique(r[1..], k, v);
        SetMembers(r[1..], k, v);
        ConsUnique(r[0], Set(r[1..], k, v));
      } else {
        ConsUnique(Entry(k, v), r[1..]);
      }
    }
  }

  /** `Object.values(r).reduce((sum, x) => sum + x, 0)` */
  function SumValues(r: Record): real {
    if r == [] then 0.0 else r[0].value + SumValues(r[1..])
  }

  /** Setting one key changes the total by exactly the change of that key's value. */
  lemma {:induction false} SumAfterSet(r: Record, k: string, v: real)
    requires KeysUnique(r)
    ensures SumValues(Set(r, k, v)) == SumValues(r) - Lookup(r, k) + v
  {
    if r != [] && r[0].key != k {
      SumAfterSet(r[1..], k, v);
    } else if r != [] {
      assert Lookup(r, k) == r[0].value;
    }
  }

  /** `r[c] || 0` summed over the keys `cs`. */
  function SumLookups(r: Record, cs: seq<string>): real {
    if cs == [] then 0.0 else SumLookups(r, cs[..|cs| - 1]) + Lookup(r, cs[|cs| - 1])
  }

  lemma {:induction false} NoLookups(cs: seq<string>)
    ensures SumLookups([], cs) == 0.0
  {
    if cs != [] {
      NoLookups(cs[..|cs| - 1]);
    }
  }

  /** Dropping the first entry of the map removes its value from the lookups
      over a repeat-free key list that holds its key. */
  lemma {:induction false} LookupsSplit(r: Record, cs: seq<string>)
    requires r != []
    requires forall i, j :: 0 <= i < j < |cs| ==> cs[i] != cs[j]
    ensures SumLookups(r, cs) == SumLookups(r[1..], cs)
      + (if r[0].key in cs then r[0].value - Lookup(r[1..], r[0].key) else 0.0)
  {
    if cs != [] {
      var init := cs[..|cs| - 1];
      assert forall c :: c in cs <==> c in init || c == cs[|cs| - 1];
      LookupsSplit(r, init);
    }
  }

  /** A map whose keys are all in a repeat-free list sums to the lookups over
      that list. */
  lemma {:induction false} SumValuesAsLookups(r: Record, cs: seq<string>)
    requires KeysUnique(r)
    requires forall i, j :: 0 <= i < j < |cs| ==> cs[i] != cs[j]
    requires forall i :: 0 <= i < |r| ==> r[i].key in cs
    ensures SumValues(r) == SumLookups(r, cs)
  {
    if r == [] {
      NoLookups(cs);
    } else {
      SumValuesAsLookups(r[1..], cs);
      LookupsSplit(r, cs);
      assert !HasKey(r[1..], r[0].key);
    }
  }

  /** The entries whose key is not among `cs`, in order. */
  function OtherKeys(r: Record, cs: seq<string>): Record {
    if r == [] then []
    else if r[0].key in cs then OtherKeys(r[1..], cs)
    else [r[0]] + OtherKeys(r[1..], cs)
  }

  /** Exactly the entries whose key is outside `cs` are kept. */
  lemma {:induction false} OtherKeysMembers(r: Record, cs: seq<string>)
    ensures forall e :: e in OtherKeys(r, cs) <==> e in r && e.key !in cs
  {
    if r != [] {
      OtherKeysMembers(r[1..], cs);
      assert forall e :: e in r <==> e == r[0] || e in r[1..];
    }
  }

  /** In a repeat-free record the head's key has no entry in the tail. */
  lemma HeadAbsentFromTail(r: Record)
    requires KeysUnique(r) && r != []
    ensures KeysUnique(r[1..]) && Lookup(r[1..], r[0].key) == 0.0
  {
    TailLacksHead(r);
    assert !HasKey(r[1..], r[0].key);
  }

  /** The entries outside `cs` of a non-empty record: the head's, if its key
      is outside, then the tail's. */
  lemma OtherKeysStep(r: Record, cs: seq<string>)
    requires r != []
    ensures SumValues(OtherKeys(r, cs))
      == (if r[0].key in cs then 0.0 else r[0].value) + SumValues(OtherKeys(r[1..], cs))
  {
    var rest := OtherKeys(r[1..], cs);
    if r[0].key !in cs {
      assert ([r[0]] + rest)[1..] == rest;
    }
  }

  /** The values of a map split into the lookups over a repeat-free key list
      and the values of the entries whose key is not in that list. */
  lemma {:induction false} SumValuesSplit(r: Record, cs: seq<string>)
    requires KeysUnique(r)
    requires forall i, j :: 0 <= i < j < |cs| ==> cs[i] != cs[j]
    ensures SumValues(r) == SumLookups(r, cs) + SumValues(OtherKeys(r, cs))
  {
    if r == [] {
      NoLookups(cs);
    } else {
      HeadAbsentFromTail(r);
      SumValuesSplit(r[1..], cs);
      LookupsSplit(r, cs);
      OtherKeysStep(r, cs);
    }
  }
}
