/**
 * Python dictionaries: a finite map together with the order in which its keys
 * were first inserted.  Assigning to an existing key replaces its value and
 * keeps the key where it was; assigning to a new key appends it.
 */
module Dicts {

  predicate Distinct<T(==)>(s: seq<T>) {
    forall i, j :: 0 <= i < j < |s| ==> s[i] != s[j]
  }

  datatype Dict<K(==), V> = Dict(keys: seq<K>, entries: map<K, V>) {

    /** The key order lists every key of the map exactly once. */
    ghost predicate Valid() {
      && Distinct(keys)
      && (forall k <- entries.Keys :: k in keys)
      && (forall i :: 0 <= i < |keys| ==> keys[i] in entries)
    }

    /** `d[k] = v` */
    function Put(k: K, v: V): (d: Dict<K, V>)
      ensures Valid() ==> d.Valid()
      ensures d.entries == entries[k := v]
      ensures k in entries ==> d.keys == keys
      ensures k !in entries ==> d.keys == keys + [k]
    {
      if k in entries then Dict(keys, entries[k := v]) else Dict(keys + [k], entries[k := v])
    }
  }

  function Empty<K(==), V>(): (d: Dict<K, V>)
    ensures d.Valid() && d.keys == [] && d.entries == map[]
  {
    Dict([], map[])
  }

  /** The keys of `keys` followed by those of `ks` not seen before, in order of first appearance. */
  function AppendNew<K(==)>(keys: seq<K>, ks: seq<K>): seq<K>
    decreases |ks|
  {
    if ks == [] then keys
    else AppendNew(if ks[0] in keys then keys else keys + [ks[0]], ks[1..])
  }

  /** Successive assignments `d[ks[i]] = vs[i]`: a later assignment to a key wins. */
  function PutAll<K(==), V>(d: Dict<K, V>, ks: seq<K>, vs: seq<V>): Dict<K, V>
    requires |ks| == |vs|
    decreases |ks|
  {
    if ks == [] then d else PutAll(d.Put(ks[0], vs[0]), ks[1..], vs[1..])
  }

  /** Successive insertions that leave an existing key alone: the first assignment to a key wins. */
  function PutAllAbsent<K(==), V>(d: Dict<K, V>, ks: seq<K>, vs: seq<V>): Dict<K, V>
    requires |ks| == |vs|
    decreases |ks|
  {
    if ks == [] then d
    else PutAllAbsent(if ks[0] in d.entries then d else d.Put(ks[0], vs[0]), ks[1..], vs[1..])
  }

  /** Where `k` occurs in `ks` and nowhere after. */
  predicate LastAt<K(==)>(ks: seq<K>, i: int) {
    0 <= i < |ks| && forall j :: i < j < |ks| ==> ks[j] != ks[i]
  }

  /** Where `k` occurs in `ks` and nowhere before. */
  predicate FirstAt<K(==)>(ks: seq<K>, i: int) {
    0 <= i < |ks| && forall j :: 0 <= j < i ==> ks[j] != ks[i]
  }

  lemma {:induction false} AppendNewValid<K>(keys: seq<K>, ks: seq<K>)
    requires Distinct(keys)
    ensures Distinct(AppendNew(keys, ks))
    ensures forall k :: k in AppendNew(keys, ks) <==> k in keys || k in ks
    ensures keys <= AppendNew(keys, ks)
    decreases |ks|
  {
    if ks != [] {
      var next := if ks[0] in keys then keys else keys + [ks[0]];
      AppendNewValid(next, ks[1..]);
      assert forall k :: k in ks <==> k == ks[0] || k in ks[1..];
    }
  }

  lemma {:induction false} PutAllSpec<K, V>(d: Dict<K, V>, ks: seq<K>, vs: seq<V>)
    requires d.Valid() && |ks| == |vs|
    ensures PutAll(d, ks, vs).Valid()
    ensures PutAll(d, ks, vs).keys == AppendNew(d.keys, ks)
    ensures forall k :: k in PutAll(d, ks, vs).entries <==> k in d.entries || k in ks
    ensures forall i :: LastAt(ks, i) ==> PutAll(d, ks, vs).entries[ks[i]] == vs[i]
    ensures forall k :: k in d.entries && k !in ks ==> PutAll(d, ks, vs).entries[k] == d.entries[k]
    decreases |ks|
  {
    if ks != [] {
      var d' := d.Put(ks[0], vs[0]);
      PutAllSpec(d', ks[1..], vs[1..]);
      var r := PutAll(d, ks, vs);
      assert r == PutAll(d', ks[1..], vs[1..]);
      assert forall k :: k in ks <==> k == ks[0] || k in ks[1..];
      forall i | LastAt(ks, i)
        ensures r.entries[ks[i]] == vs[i]
      {
        if i == 0 {
          assert ks[0] !in ks[1..];
        } else {
          assert LastAt(ks[1..], i - 1);
        }
      }
    }
  }

  lemma {:induction false} PutAllAbsentSpec<K, V>(d: Dict<K, V>, ks: seq<K>, vs: seq<V>)
    requires d.Valid() && |ks| == |vs|
    ensures PutAllAbsent(d, ks, vs).Valid()
    ensures PutAllAbsent(d, ks, vs).keys == AppendNew(d.keys, ks)
    ensures forall k :: k in PutAllAbsent(d, ks, vs).entries <==> k in d.entries || k in ks
    ensures forall i :: FirstAt(ks, i) && ks[i] !in d.entries ==> PutAllAbsent(d, ks, vs).entries[ks[i]] == vs[i]
    ensures forall k :: k in d.entries ==> PutAllAbsent(d, ks, vs).entries[k] == d.entries[k]
    decreases |ks|
  {
    if ks != [] {
      var d' := if ks[0] in d.entries then d else d.Put(ks[0], vs[0]);
      PutAllAbsentSpec(d', ks[1..], vs[1..]);
      var r := PutAllAbsent(d, ks, vs);
      assert r == PutAllAbsent(d', ks[1..], vs[1..]);
      assert d'.keys == if ks[0] in d.keys then d.keys else d.keys + [ks[0]];
      assert forall k :: k in ks <==> k == ks[0] || k in ks[1..];
      forall i | FirstAt(ks, i) && ks[i] !in d.entries
        ensures r.entries[ks[i]] == vs[i]
      {
        if i != 0 {
          assert FirstAt(ks[1..], i - 1);
          assert ks[i] != ks[0];
        }
      }
    }
  }

  lemma ConcatAssociative<T>(a: seq<T>, b: seq<T>, c: seq<T>)
    ensures (a + b) + c == a + (b + c)
  {
  }

  /** Appending keys that are all new keeps them in the order given. */
  lemma {:induction false} AppendNewFresh<K>(keys: seq<K>, ks: seq<K>)
    requires Distinct(keys + ks)
    ensures AppendNew(keys, ks) == keys + ks
    decreases |ks|
  {
    if ks != [] {
      forall j | 0 <= j < |keys|
        ensures keys[j] != ks[0]
      {
        assert (keys + ks)[j] == keys[j] && (keys + ks)[|keys|] == ks[0];
      }
      assert keys + ks == (keys + [ks[0]]) + ks[1..];
      AppendNewFresh(keys + [ks[0]], ks[1..]);
    }
  }

  /** A key that occurs has a last occurrence. */
  lemma {:induction false} LastOccurrence<K>(ks: seq<K>, k: K)
    requires k in ks
    ensures exists i :: LastAt(ks, i) && ks[i] == k
    decreases |ks|
  {
    var n := |ks| - 1;
    if ks[n] == k {
      assert LastAt(ks, n);
    } else {
      var front := ks[..n];
      assert k in front;
      LastOccurrence(front, k);
      var i :| LastAt(front, i) && front[i] == k;
      assert LastAt(ks, i);
    }
  }
}
