/** Python dictionaries as the model sees them: a finite map plus the order in
    which its keys were first inserted, which is the order `values()` yields. */
module Dicts {
  import opened Seqs

  datatype Dict<K(==), V> = Dict(order: seq<K>, table: map<K, V>) {

    /** The insertion order lists every key of the table exactly once. */
    predicate Valid() {
      && NoDups(order)
      && (forall k :: k in order ==> k in table)
      && (forall k :: k in table ==> k in order)
    }

    /** `d.get(k, default)` */
    function Get(k: K, default: V): V {
      if k in table then table[k] else default
    }

    /** `d[k] = v`: a new key goes to the end of the order, an existing key keeps its place. */
    function Put(k: K, v: V): (d: Dict<K, V>)
      requires Valid()
      ensures d.Valid()
      ensures d.table == table[k := v]
      ensures d.order == if k in table then order else order + [k]
    {
      Dict(if k in table then order else order + [k], table[k := v])
    }
  }

  /** `[key(r) for r in rows if keep(r)]` */
  function KeysOf<R, K>(rows: seq<R>, keep: R -> bool, key: R -> K): (ks: seq<K>)
    ensures forall n :: 0 <= n < |rows| && keep(rows[n]) ==> key(rows[n]) in ks
  {
    if rows == [] then []
    else
      var init, last := rows[..|rows| - 1], rows[|rows| - 1];
      assert forall n :: 0 <= n < |init| ==> init[n] == rows[n];
      KeysOf(init, keep, key) + if keep(last) then [key(last)] else []
  }

  /** The dictionary comprehension `{key(r): val(r) for r in rows if keep(r)}`:
      rows are visited in order and a later row with the same key overwrites
      the value an earlier one stored. */
  function Comprehension<R, K(==), V>(rows: seq<R>, keep: R -> bool, key: R -> K, val: R -> V): (d: Dict<K, V>)
    ensures d.Valid()
    ensures forall k :: k in d.table ==> k in KeysOf(rows, keep, key)
    ensures forall k :: k in KeysOf(rows, keep, key) ==> k in d.table
    ensures d.order == Distinct(KeysOf(rows, keep, key))
  {
    if rows == [] then Dict([], map[])
    else
      var d := Comprehension(rows[..|rows| - 1], keep, key, val);
      var r := rows[|rows| - 1];
      if keep(r) then d.Put(key(r), val(r))
      else
        assert KeysOf(rows, keep, key) == KeysOf(rows[..|rows| - 1], keep, key) + [];
        assert KeysOf(rows, keep, key) == KeysOf(rows[..|rows| - 1], keep, key);
        d
  }

  /** Row `n` is kept, and no later kept row has the same key. */
  predicate IsLastKept<R, K(==)>(rows: seq<R>, keep: R -> bool, key: R -> K, n: int) {
    && 0 <= n < |rows|
    && keep(rows[n])
    && forall m :: n < m < |rows| && keep(rows[m]) ==> key(rows[m]) != key(rows[n])
  }

  /** The last kept row with a given key decides its value. */
  lemma {:induction false} ComprehensionKeepsLastRow<R, K, V>(rows: seq<R>, keep: R -> bool, key: R -> K, val: R -> V, n: int)
    requires IsLastKept(rows, keep, key, n)
    ensures key(rows[n]) in Comprehension(rows, keep, key, val).table
    ensures Comprehension(rows, keep, key, val).table[key(rows[n])] == val(rows[n])
  {
    var init := rows[..|rows| - 1];
    if n < |rows| - 1 {
      assert forall m :: 0 <= m < |init| ==> init[m] == rows[m];
      assert IsLastKept(init, keep, key, n);
      ComprehensionKeepsLastRow(init, keep, key, val, n);
    }
  }

  /** Every key listed comes from a kept row. */
  lemma {:induction false} KeyHasKeptRow<R, K>(rows: seq<R>, keep: R -> bool, key: R -> K, k: K) returns (n: nat)
    requires k in KeysOf(rows, keep, key)
    ensures n < |rows| && keep(rows[n]) && key(rows[n]) == k
  {
    var last := rows[|rows| - 1];
    if keep(last) && key(last) == k {
      n := |rows| - 1;
    } else {
      n := KeyHasKeptRow(rows[..|rows| - 1], keep, key, k);
    }
  }

  /** Every key of a comprehension has a last kept row, and holds that row's value. */
  lemma {:induction false} ComprehensionValueIsFromLastRow<R, K, V>(rows: seq<R>, keep: R -> bool, key: R -> K, val: R -> V, k: K)
    requires k in Comprehension(rows, keep, key, val).table
    ensures exists n :: IsLastKept(rows, keep, key, n) && key(rows[n]) == k
                        && Comprehension(rows, keep, key, val).table[k] == val(rows[n])
  {
    var n := LastKeptIndex(rows, keep, key, k);
    ComprehensionKeepsLastRow(rows, keep, key, val, n);
  }

  lemma {:induction false} LastKeptIndex<R, K>(rows: seq<R>, keep: R -> bool, key: R -> K, k: K) returns (n: int)
    requires k in KeysOf(rows, keep, key)
    ensures IsLastKept(rows, keep, key, n) && key(rows[n]) == k
  {
    var init, last := rows[..|rows| - 1], rows[|rows| - 1];
    if keep(last) && key(last) == k {
      n := |rows| - 1;
    } else {
      assert k in KeysOf(init, keep, key);
      n := LastKeptIndex(init, keep, key, k);
      assert forall m :: 0 <= m < |init| ==> init[m] == rows[m];
    }
  }

  /** `sum(d.values())` */
  function SumValues<K(==)>(d: Dict<K, real>): real {
    Sum(d.order, ValueAt(d))
  }

  function ValueAt<K(==)>(d: Dict<K, real>): K -> real {
    k => d.Get(k, 0.0)
  }
}
