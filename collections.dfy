/** Python's list, set and dict as the workflow state uses them. */
module Collections {

  predicate NoDuplicates<T(==)>(s: seq<T>) {
    forall i, j :: 0 <= i < j < |s| ==> s[i] != s[j]
  }

  /** `list(set(s))`: every element of `s` exactly once. Python leaves the order
      of the result unspecified; this model keeps first occurrences, and no
      property stated about it depends on that choice. */
  function Dedup(s: seq<string>): (r: seq<string>)
    ensures NoDuplicates(r)
    ensures forall x :: x in r <==> x in s
    ensures |r| <= |s|
  {
    if s == [] then []
    else
      var rest := Dedup(s[..|s| - 1]);
      assert forall x :: x in s <==> x in s[..|s| - 1] || x == s[|s| - 1];
      if s[|s| - 1] in rest then rest else rest + [s[|s| - 1]]
  }

  /** Walking a list: the next prefix is this one and the next element. */
  lemma PrefixSnoc(s: seq<string>, i: nat)
    requires i < |s|
    ensures s[..i + 1] == s[..i] + [s[i]]
  {
  }

  /** In a list without duplicates, an element is not among those before it. */
  lemma NotInPrefix(s: seq<string>, i: nat)
    requires NoDuplicates(s) && i < |s|
    ensures s[i] !in s[..i]
  {
    forall j | 0 <= j < i ensures s[j] != s[i] { }
  }

  /** A Python dict: a finite map whose keys also carry the order in which
      they were first inserted, which is the order of `for k in d`. */
  datatype RawDict<V> = RawDict(order: seq<string>, values: map<string, V>)

  type Dict<V> = d: RawDict<V> | NoDuplicates(d.order) && (forall k :: k in d.values <==> k in d.order)
    witness RawDict([], map[])

  function EmptyDict<V>(): (d: Dict<V>)
    ensures d.values == map[] && d.order == []
  {
    RawDict([], map[])
  }

  /** `d[k] = v`: a present key keeps its position, a new key goes last. */
  function Put<V>(d: Dict<V>, k: string, v: V): (r: Dict<V>)
    ensures r.values == d.values[k := v]
    ensures r.order == if k in d.values then d.order else d.order + [k]
  {
    if k in d.values then RawDict(d.order, d.values[k := v])
    else RawDict(d.order + [k], d.values[k := v])
  }

  /** `d.get(k, default)` */
  function GetOr<V>(d: Dict<V>, k: string, default: V): V {
    if k in d.values then d.values[k] else default
  }

  /** `d.values()`: the values in key order. */
  function ValuesInOrder<V>(d: Dict<V>): (r: seq<V>)
    ensures |r| == |d.order| && forall i :: 0 <= i < |r| ==> r[i] == d.values[d.order[i]]
  {
    seq(|d.order|, i requires 0 <= i < |d.order| => d.values[d.order[i]])
  }

  /** An element that comes after a run of passing elements of `s[1..]`
      comes after a run of passing elements of `s` when `s[0]` passes too:
      "reported first" carries over from the tail to the whole list. */
  lemma FirstAfterPassing<T>(s: seq<T>, x: T, ok: T -> bool)
    requires s != [] && ok(s[0])
    requires
      exists i :: 0 <= i < |s[1..]| && s[1..][i] == x && forall j :: 0 <= j < i ==> ok(s[1..][j])
    ensures
      exists i :: 0 <= i < |s| && s[i] == x && forall j :: 0 <= j < i ==> ok(s[j])
  {
    var i :| 0 <= i < |s[1..]| && s[1..][i] == x && forall j :: 0 <= j < i ==> ok(s[1..][j]);
    assert s[i + 1] == x;
    assert forall j :: 1 <= j < i + 1 ==> s[j] == s[1..][j - 1];
  }

  /** Two lists without duplicates and without a common element concatenate
      to a list without duplicates. */
  lemma NoDuplicatesConcat(a: seq<string>, b: seq<string>)
    requires NoDuplicates(a) && NoDuplicates(b)
    requires forall x :: x in b ==> x !in a
    ensures NoDuplicates(a + b)
  {
    forall i, j | 0 <= i < j < |a + b| ensures (a + b)[i] != (a + b)[j] {
      if i < |a| && j >= |a| {
        assert (a + b)[j] == b[j - |a|];
        assert b[j - |a|] in b;
      }
    }
  }

  /** The keys of `keys` that `d` does not hold, in their order. */
  function KeysNotIn<V>(keys: seq<string>, d: map<string, V>): (r: seq<string>)
    ensures forall k :: k in r <==> k in keys && k !in d
    ensures NoDuplicates(keys) ==> NoDuplicates(r)
    decreases |keys|
  {
    if keys == [] then []
    else
      var front, last := keys[..|keys| - 1], keys[|keys| - 1];
      assert forall k :: k in keys <==> k in front || k == last;
      assert NoDuplicates(keys) ==> last !in front;
      KeysNotIn(front, d) + (if last in d then [] else [last])
  }

  /** Against an empty map no key is dropped. */
  lemma {:induction false} KeysNotInNone<V>(keys: seq<string>, d: map<string, V>)
    requires d == map[]
    ensures KeysNotIn(keys, d) == keys
    decreases |keys|
  {
    if keys != [] {
      KeysNotInNone(keys[..|keys| - 1], d);
      assert keys[..|keys| - 1] + [keys[|keys| - 1]] == keys;
    }
  }

  /** The value the merged dict holds for `k`: `combine` of both sides when
      both have `k`, otherwise the one side's value. */
  function MergedValue<V>(existing: Dict<V>, incoming: Dict<V>, combine: (V, V) -> V, k: string): V
    requires k in existing.values || k in incoming.values
  {
    if k in existing.values && k in incoming.values then combine(existing.values[k], incoming.values[k])
    else if k in incoming.values then incoming.values[k]
    else existing.values[k]
  }

  /** A copy of `existing` into which every entry of `incoming` is folded in
      `incoming`'s order: keys of `existing` keep their position, keys only
      `incoming` has follow in its order. */
  function Merged<V>(existing: Dict<V>, incoming: Dict<V>, combine: (V, V) -> V): (r: Dict<V>)
    ensures r.order == existing.order + KeysNotIn(incoming.order, existing.values)
    ensures r.values.Keys == existing.values.Keys + incoming.values.Keys
    ensures forall k :: k in r.values ==> r.values[k] == MergedValue(existing, incoming, combine, k)
  {
    NoDuplicatesConcat(existing.order, KeysNotIn(incoming.order, existing.values));
    RawDict(existing.order + KeysNotIn(incoming.order, existing.values),
            map k | k in existing.values.Keys + incoming.values.Keys :: MergedValue(existing, incoming, combine, k))
  }

  lemma MergedIntoEmpty<V>(existing: Dict<V>, incoming: Dict<V>, combine: (V, V) -> V)
    requires existing.order == []
    ensures Merged(existing, incoming, combine) == incoming
  {
    var r := Merged(existing, incoming, combine);
    assert existing.values.Keys == {};
    assert r.order == incoming.order by {
      KeysNotInNone(incoming.order, existing.values);
    }
    assert r.values == incoming.values;
  }

  lemma MergedFromEmpty<V>(existing: Dict<V>, incoming: Dict<V>, combine: (V, V) -> V)
    requires incoming.order == []
    ensures Merged(existing, incoming, combine) == existing
  {
    var r := Merged(existing, incoming, combine);
    assert incoming.values == map[];
    assert r.values == existing.values;
  }

  /** After folding in the entries `seen` of `incoming` (a prefix of its
      order), the copy holds the keys of `existing` followed by the new keys
      seen so far, each merged. */
  ghost predicate PartiallyMerged<V>(
    updated: RawDict<V>, existing: Dict<V>, incoming: Dict<V>, combine: (V, V) -> V, seen: seq<string>)
  {
    && (forall x :: x in seen ==> x in incoming.values)
    && updated.order == existing.order + KeysNotIn(seen, existing.values)
    && (forall k :: k in updated.values <==> k in existing.values || k in seen)
    && (forall k :: k in updated.values ==>
          updated.values[k] == if k in seen then MergedValue(existing, incoming, combine, k)
                               else existing.values[k])
  }

  /** Folding in one more entry `k` of `incoming` keeps the invariant. */
  lemma PartiallyMergedStep<V>(
    updated: RawDict<V>, existing: Dict<V>, incoming: Dict<V>, combine: (V, V) -> V, seen: seq<string>, k: string,
    next: RawDict<V>)
    requires k in incoming.values && k !in seen
    requires PartiallyMerged(updated, existing, incoming, combine, seen)
    requires next.order == if k in updated.values then updated.order else updated.order + [k]
    requires next.values == updated.values[k := MergedValue(existing, incoming, combine, k)]
    ensures PartiallyMerged(next, existing, incoming, combine, seen + [k])
  {
    PartiallyMergedValuesStep(updated, existing, incoming, combine, seen, k);
    KeysNotInSnoc(seen, k, existing.values);
    PartiallyMergedUntouched(updated, existing, incoming, combine, seen, k);
    AppendedInOrder(updated.order, existing.order, KeysNotIn(seen, existing.values), k, k in existing.values);
  }

  lemma AppendedInOrder(s: seq<string>, front: seq<string>, back: seq<string>, k: string, present: bool)
    requires s == front + back
    ensures (if present then s else s + [k]) == front + (back + if present then [] else [k])
  {
  }

  /** Before the step, `k` is in the copy exactly when `existing` has it,
      unchanged. */
  lemma PartiallyMergedUntouched<V>(
    updated: RawDict<V>, existing: Dict<V>, incoming: Dict<V>, combine: (V, V) -> V, seen: seq<string>, k: string)
    requires k !in seen
    requires PartiallyMerged(updated, existing, incoming, combine, seen)
    ensures k in updated.values <==> k in existing.values
    ensures k in updated.values ==> updated.values[k] == existing.values[k]
  {
  }

  lemma KeysNotInSnoc<V>(keys: seq<string>, k: string, d: map<string, V>)
    ensures KeysNotIn(keys + [k], d) == KeysNotIn(keys, d) + (if k in d then [] else [k])
  {
    assert (keys + [k])[..|keys + [k]| - 1] == keys;
  }

  lemma PartiallyMergedValuesStep<V>(
    updated: RawDict<V>, existing: Dict<V>, incoming: Dict<V>, combine: (V, V) -> V, seen: seq<string>, k: string)
    requires k in incoming.values
    requires forall x :: x in seen ==> x in incoming.values
    requires forall x :: x in updated.values <==> x in existing.values || x in seen
    requires forall x :: x in updated.values ==>
          updated.values[x] == if x in seen then MergedValue(existing, incoming, combine, x)
                               else existing.values[x]
    ensures var next := updated.values[k := MergedValue(existing, incoming, combine, k)];
      && (forall x :: x in next <==> x in existing.values || x in seen + [k])
      && (forall x :: x in next ==>
            next[x] == if x in seen + [k] then MergedValue(existing, incoming, combine, x) else existing.values[x])
  {
    var next := updated.values[k := MergedValue(existing, incoming, combine, k)];
    forall x | x in next
      ensures next[x] == if x in seen + [k] then MergedValue(existing, incoming, combine, x) else existing.values[x]
    {
      assert x in seen + [k] <==> x in seen || x == k;
    }
    forall x ensures x in next <==> x in existing.values || x in seen + [k] {
      assert x in seen + [k] <==> x in seen || x == k;
    }
  }

  lemma PartiallyMergedDone<V>(updated: Dict<V>, existing: Dict<V>, incoming: Dict<V>, combine: (V, V) -> V)
    requires PartiallyMerged(updated, existing, incoming, combine, incoming.order)
    ensures updated == Merged(existing, incoming, combine)
  {
    var spec := Merged(existing, incoming, combine);
    assert updated.values.Keys == spec.values.Keys;
    assert updated.values == spec.values;
  }
}
