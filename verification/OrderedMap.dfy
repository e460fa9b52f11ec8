/**
  The insertion-ordered `Map` of JavaScript, keyed by strings.  Assigning to a
  key that is present keeps its place, assigning to a new key appends it, and
  deleting a key and assigning it again moves it to the end.
 */
module OrderedMap {

  datatype RawDict<+V> = RawDict(order: seq<string>, entries: map<string, V>)
  {
    ghost predicate Valid() {
      && (forall i, j :: 0 <= i < j < |order| ==> order[i] != order[j])
      && (forall k :: k in order <==> k in entries)
    }
  }

  type Dict<+V> = d: RawDict<V> | d.Valid() witness RawDict([], map[])

  function Empty<V>(): (d: Dict<V>) {
    RawDict([], map[])
  }

  function Set<V>(d: Dict<V>, k: string, v: V): (r: Dict<V>)
    ensures r.entries == d.entries[k := v]
    ensures r.order == if k in d.entries then d.order else d.order + [k]
  {
    if k in d.entries then RawDict(d.order, d.entries[k := v])
    else RawDict(d.order + [k], d.entries[k := v])
  }

  function Without(keys: seq<string>, k: string): (r: seq<string>)
    ensures forall x :: x in r <==> x in keys && x != k
    ensures (forall i, j :: 0 <= i < j < |keys| ==> keys[i] != keys[j]) ==>
              (forall i, j :: 0 <= i < j < |r| ==> r[i] != r[j])
  {
    if |keys| == 0 then []
    else if keys[0] == k then Without(keys[1..], k)
    else
      var rest := Without(keys[1..], k);
      assert forall i :: 0 <= i < |rest| ==> rest[i] in keys[1..];
      [keys[0]] + rest
  }

  function Delete<V>(d: Dict<V>, k: string): (r: Dict<V>)
    ensures r.entries == d.entries - {k}
    ensures forall x :: x in r.order <==> x in d.order && x != k
  {
    RawDict(Without(d.order, k), d.entries - {k})
  }

  /** The values, in iteration order. */
  function Values<V>(d: Dict<V>): (s: seq<V>)
    ensures |s| == |d.order|
    ensures forall i :: 0 <= i < |s| ==> d.order[i] in d.entries && s[i] == d.entries[d.order[i]]
  {
    assert forall i :: 0 <= i < |d.order| ==> d.order[i] in d.order;
    seq(|d.order|, i requires 0 <= i < |d.order| => d.entries[d.order[i]])
  }

  /** Deletes every key of `ks`, one after the other. */
  function Sweep<V>(d: Dict<V>, ks: seq<string>): (r: Dict<V>)
    ensures r.entries == d.entries - (set k | k in ks)
  {
    if |ks| == 0 then d
    else
      var last := |ks| - 1;
      assert ks == ks[..last] + [ks[last]];
      Delete(Sweep(d, ks[..last]), ks[last])
  }

  /** Deleting a key keeps the order of the others. */
  lemma {:induction false} WithoutKeepsOrder(before: seq<string>, k: string, after: seq<string>)
    requires k !in before && k !in after
    ensures Without(before + [k] + after, k) == before + after
  {
    if |before| == 0 {
      assert before + [k] + after == [k] + after;
      WithoutAbsent(after, k);
      assert before + after == after;
    } else {
      assert (before + [k] + after)[1..] == before[1..] + [k] + after;
      WithoutKeepsOrder(before[1..], k, after);
      assert before + after == [before[0]] + (before[1..] + after);
    }
  }

  lemma {:induction false} WithoutAbsent(keys: seq<string>, k: string)
    requires k !in keys
    ensures Without(keys, k) == keys
  {
    if |keys| > 0 { WithoutAbsent(keys[1..], k); }
  }

  /** A key that is deleted and assigned again comes last; assigning to a present key keeps its place. */
  lemma ReassignedComesLast<V>(d: Dict<V>, before: seq<string>, k: string, after: seq<string>, v: V)
    requires d.order == before + [k] + after
    ensures Delete(d, k).order == before + after
    ensures Set(Delete(d, k), k, v).order == before + after + [k]
    ensures Set(d, k, v).order == d.order
  {
    assert d.order[|before|] == k;
    forall i | 0 <= i < |before| ensures before[i] != k { assert d.order[i] == before[i]; }
    forall i | 0 <= i < |after| ensures after[i] != k { assert d.order[|before| + 1 + i] == after[i]; }
    WithoutKeepsOrder(before, k, after);
    assert k in d.order;
  }
}
