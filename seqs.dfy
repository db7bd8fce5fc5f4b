/** Sequence helpers: duplicate removal in order of first appearance (pandas'
    `Series.unique`), ascending duplicate-free ordering of integers (`sorted`
    applied to the unique weeks), and sums of real-valued terms over a sequence
    (Python's `sum` and PuLP's `lpSum`). */
module Seqs {

  predicate NoDups<T(==)>(s: seq<T>) {
    forall a, b :: 0 <= a < b < |s| ==> s[a] != s[b]
  }

  /** Position of the first occurrence of `x` in `s`. */
  function IndexOf<T(==)>(s: seq<T>, x: T): (n: nat)
    requires x in s
    ensures n < |s| && s[n] == x
    ensures forall m :: 0 <= m < n ==> s[m] != x
  {
    if s[0] == x then 0 else 1 + IndexOf(s[1..], x)
  }

  lemma {:induction false} IndexOfPrefix<T>(s: seq<T>, t: seq<T>, x: T)
    requires x in s
    ensures IndexOf(s + t, x) == IndexOf(s, x)
  {
    if s[0] != x {
      assert (s + t)[1..] == s[1..] + t;
      IndexOfPrefix(s[1..], t, x);
    }
  }

  /** The distinct elements of `s`, each kept where it first appears. */
  function Distinct<T(==)>(s: seq<T>): (r: seq<T>)
    ensures NoDups(r)
    ensures forall x :: x in r ==> x in s
    ensures forall x :: x in s ==> x in r
    decreases |s|
  {
    if s == [] then []
    else
      var r0 := Distinct(s[..|s| - 1]);
      assert s == s[..|s| - 1] + [s[|s| - 1]];
      if s[|s| - 1] in r0 then r0 else r0 + [s[|s| - 1]]
  }

  /** `Distinct` lists the elements in the order of their first occurrence. */
  lemma {:induction false} DistinctKeepsFirstOccurrenceOrder<T>(s: seq<T>)
    ensures forall a, b :: 0 <= a < b < |Distinct(s)| ==>
              IndexOf(s, Distinct(s)[a]) < IndexOf(s, Distinct(s)[b])
  {
    if s != [] {
      var init, last := s[..|s| - 1], s[|s| - 1];
      assert s == init + [last];
      DistinctKeepsFirstOccurrenceOrder(init);
      var r0 := Distinct(init);
      forall x | x in init ensures IndexOf(s, x) == IndexOf(init, x) {
        IndexOfPrefix(init, [last], x);
      }
      var r := Distinct(s);
      if last !in r0 {
        assert r == r0 + [last];
        assert IndexOf(s, last) == |s| - 1 by {
          forall m | 0 <= m < |s| - 1 ensures s[m] != last {
            assert s[m] == init[m] && init[m] in init;
          }
        }
        forall a, b | 0 <= a < b < |r| ensures IndexOf(s, r[a]) < IndexOf(s, r[b]) {
          assert r[a] == r0[a] && r0[a] in init;
          if b < |r0| {
            assert r[b] == r0[b];
          }
        }
      } else {
        assert r == r0;
        forall a, b | 0 <= a < b < |r| ensures IndexOf(s, r[a]) < IndexOf(s, r[b]) {
          assert r0[a] in init && r0[b] in init;
        }
      }
    }
  }

  /** Every occurrence in `s` of a later element of `r` comes after an
      occurrence of each earlier element of `r`. */
  predicate FirstSeenInOrder<T(==)>(s: seq<T>, r: seq<T>) {
    forall a, b, n :: 0 <= a < b < |r| && 0 <= n < |s| && s[n] == r[b] ==>
      exists m :: 0 <= m < n && s[m] == r[a]
  }

  lemma DistinctFollowsFirstOccurrences<T>(s: seq<T>)
    ensures FirstSeenInOrder(s, Distinct(s))
  {
    var r := Distinct(s);
    DistinctKeepsFirstOccurrenceOrder(s);
    forall a, b, n | 0 <= a < b < |r| && 0 <= n < |s| && s[n] == r[b]
      ensures exists m :: 0 <= m < n && s[m] == r[a]
    {
      assert r[a] in r && r[b] in r;
      var m := IndexOf(s, r[a]);
      assert m < IndexOf(s, r[b]) <= n;
    }
  }

  predicate StrictlyIncreasing(s: seq<int>) {
    forall a, b :: 0 <= a < b < |s| ==> s[a] < s[b]
  }

  /** Inserts `x` into a strictly increasing sequence unless it is already there. */
  function InsertUnique(x: int, s: seq<int>): (r: seq<int>)
    requires StrictlyIncreasing(s)
    ensures StrictlyIncreasing(r)
    ensures forall y :: y in r <==> y == x || y in s
  {
    if s == [] then [x]
    else if x < s[0] then [x] + s
    else if x == s[0] then s
    else
      var tail := InsertUnique(x, s[1..]);
      assert forall y :: y in s[1..] ==> s[0] < y by {
        forall y | y in s[1..] ensures s[0] < y {
          var n :| 0 <= n < |s[1..]| && s[1..][n] == y;
          assert s[n + 1] == y;
        }
      }
      var r := [s[0]] + tail;
      assert forall b :: 0 < b < |r| ==> r[b] == tail[b - 1] && tail[b - 1] in tail;
      r
  }

  /** The distinct elements of `s` in ascending order. */
  function SortedUnique(s: seq<int>): (r: seq<int>)
    ensures StrictlyIncreasing(r)
    ensures forall y :: y in r <==> y in s
  {
    if s == [] then []
    else
      assert s == s[..|s| - 1] + [s[|s| - 1]];
      InsertUnique(s[|s| - 1], SortedUnique(s[..|s| - 1]))
  }

  /** There is only one strictly increasing listing of a set of integers, so
      `SortedUnique(s)` is the sorted list of the distinct elements of `s`. */
  lemma {:induction false} StrictlyIncreasingListingIsUnique(r1: seq<int>, r2: seq<int>)
    requires StrictlyIncreasing(r1) && StrictlyIncreasing(r2)
    requires forall y :: y in r1 <==> y in r2
    ensures r1 == r2
  {
    if r1 != [] {
      assert r1[0] in r1;
    }
    if r2 != [] {
      assert r2[0] in r2;
    }
    if r1 != [] && r2 != [] {
      assert r1[0] in r2 && r2[0] in r1;
      assert r1[0] == r2[0];
      forall y ensures y in r1[1..] <==> y in r2[1..] {
        if y in r1[1..] {
          assert y > r1[0] && y in r2;
        }
        if y in r2[1..] {
          assert y > r2[0] && y in r1;
        }
      }
      StrictlyIncreasingListingIsUnique(r1[1..], r2[1..]);
      assert r1 == [r1[0]] + r1[1..] && r2 == [r2[0]] + r2[1..];
    }
  }

  /** The values of one column: `[f(r) for r in rows]`. */
  function Column<R, T>(rows: seq<R>, f: R -> T): (c: seq<T>)
    ensures |c| == |rows|
    ensures forall n :: 0 <= n < |rows| ==> c[n] == f(rows[n])
  {
    seq(|rows|, n requires 0 <= n < |rows| => f(rows[n]))
  }

  /** Left-to-right sum of `f` over `s`. */
  function Sum<T>(s: seq<T>, f: T -> real): real
  {
    if s == [] then 0.0 else Sum(s[..|s| - 1], f) + f(s[|s| - 1])
  }

  lemma SumOfOne<T>(x: T, f: T -> real)
    ensures Sum([x], f) == f(x)
  {
    assert [x][..0] == [];
  }

  lemma {:induction false} SumConcat<T>(s: seq<T>, t: seq<T>, f: T -> real)
    ensures Sum(s + t, f) == Sum(s, f) + Sum(t, f)
  {
    if t != [] {
      assert (s + t)[..|s + t| - 1] == s + t[..|t| - 1];
      SumConcat(s, t[..|t| - 1], f);
    } else {
      assert s + t == s;
    }
  }

  /** `x => sum(f(x, y) for y in t)` */
  function RowSums<A, B>(t: seq<B>, f: (A, B) -> real): A -> real {
    x => Sum(t, RowOf(f, x))
  }

  function RowOf<A, B>(f: (A, B) -> real, x: A): B -> real {
    y => f(x, y)
  }

  /** `y => sum(f(x, y) for x in s)` */
  function ColSums<A, B>(s: seq<A>, f: (A, B) -> real): B -> real {
    y => Sum(s, ColOf(f, y))
  }

  function ColOf<A, B>(f: (A, B) -> real, y: B): A -> real {
    x => f(x, y)
  }

  /** Two nested sums can be taken in either order. */
  lemma {:induction false} SumSwap<A, B>(s: seq<A>, t: seq<B>, f: (A, B) -> real)
    ensures Sum(s, RowSums(t, f)) == Sum(t, ColSums(s, f))
  {
    if s == [] {
      SumConst(t, ColSums(s, f), 0.0);
    } else {
      var s0, x := s[..|s| - 1], s[|s| - 1];
      SumSwap(s0, t, f);
      SumAdd(t, ColSums(s0, f), RowOf(f, x), ColSums(s, f));
    }
  }

  /** The order of the summands does not matter: two repeat-free sequences
      with the same elements have the same sum. */
  lemma {:induction false} SumPermutation<T>(s: seq<T>, t: seq<T>, f: T -> real)
    requires NoDups(s) && NoDups(t)
    requires forall x :: x in s <==> x in t
    ensures Sum(s, f) == Sum(t, f)
    decreases |s|
  {
    if s == [] {
      if t != [] {
        HeadIsMember(t);
        assert false;
      }
    } else {
      var x, s0 := s[|s| - 1], s[..|s| - 1];
      var m := IndexOf(t, x);
      SumRemoveAt(t, m, f);
      RemoveAtKeepsOthers(t, m);
      RemoveAtKeepsOthers(s, |s| - 1);
      assert s[..|s| - 1] + s[|s|..] == s0;
      forall y ensures y in s0 <==> y in t[..m] + t[m + 1..] {
        assert y in s <==> y in t;
      }
      SumPermutation(s0, t[..m] + t[m + 1..], f);
    }
  }

  lemma HeadIsMember<T>(t: seq<T>)
    requires t != []
    ensures t[0] in t
  {
  }

  lemma SumRemoveAt<T>(t: seq<T>, m: nat, f: T -> real)
    requires m < |t|
    ensures Sum(t, f) == Sum(t[..m] + t[m + 1..], f) + f(t[m])
  {
    var front, x, back := t[..m], t[m], t[m + 1..];
    assert t[..m + 1] == front + [x];
    assert t == t[..m + 1] + back;
    SumConcat(front + [x], back, f);
    SumConcat(front, [x], f);
    SumOfOne(x, f);
    SumConcat(front, back, f);
  }

  /** Removing the element at position m of a repeat-free sequence leaves a
      repeat-free sequence holding every other element. */
  lemma RemoveAtKeepsOthers<T>(t: seq<T>, m: nat)
    requires NoDups(t) && m < |t|
    ensures NoDups(t[..m] + t[m + 1..])
    ensures forall y :: y in t[..m] + t[m + 1..] <==> y in t && y != t[m]
  {
    var t0 := t[..m] + t[m + 1..];
    assert forall a :: 0 <= a < |t0| ==> t0[a] == t[if a < m then a else a + 1];
    forall y | y in t && y != t[m] ensures y in t0 {
      var n :| 0 <= n < |t| && t[n] == y;
      assert t0[if n < m then n else n - 1] == y;
    }
  }

  lemma {:induction false} SumAdd<T>(s: seq<T>, f: T -> real, g: T -> real, h: T -> real)
    requires forall x :: x in s ==> h(x) == f(x) + g(x)
    ensures Sum(s, h) == Sum(s, f) + Sum(s, g)
  {
    if s != [] {
      assert s[|s| - 1] in s;
      assert forall x :: x in s[..|s| - 1] ==> x in s;
      SumAdd(s[..|s| - 1], f, g, h);
    }
  }

  lemma {:induction false} SumScale<T>(s: seq<T>, f: T -> real, g: T -> real, c: real)
    requires forall x :: x in s ==> g(x) == c * f(x)
    ensures Sum(s, g) == c * Sum(s, f)
  {
    if s != [] {
      assert s[|s| - 1] in s;
      assert forall x :: x in s[..|s| - 1] ==> x in s;
      SumScale(s[..|s| - 1], f, g, c);
    }
  }

  lemma {:induction false} SumConst<T>(s: seq<T>, f: T -> real, c: real)
    requires forall x :: x in s ==> f(x) == c
    ensures Sum(s, f) == |s| as real * c
  {
    if s != [] {
      assert s[|s| - 1] in s;
      assert forall x :: x in s[..|s| - 1] ==> x in s;
      SumConst(s[..|s| - 1], f, c);
    }
  }

  lemma {:induction false} SumLe<T>(s: seq<T>, f: T -> real, g: T -> real)
    requires forall x :: x in s ==> f(x) <= g(x)
    ensures Sum(s, f) <= Sum(s, g)
  {
    if s != [] {
      assert s[|s| - 1] in s;
      assert forall x :: x in s[..|s| - 1] ==> x in s;
      SumLe(s[..|s| - 1], f, g);
    }
  }

  /** Two listings without repeats and without a common element concatenate
      to one without repeats. */
  lemma NoDupsConcat<T>(s: seq<T>, t: seq<T>)
    requires NoDups(s) && NoDups(t)
    requires forall x :: x in s ==> x !in t
    ensures NoDups(s + t)
  {
    forall a, b | 0 <= a < b < |s + t| ensures (s + t)[a] != (s + t)[b] {
      if b < |s| {
        assert (s + t)[a] == s[a] && (s + t)[b] == s[b];
      } else if a < |s| {
        assert (s + t)[a] == s[a] && (s + t)[b] == t[b - |s|];
        assert s[a] in s && t[b - |s|] in t;
      } else {
        assert (s + t)[a] == t[a - |s|] && (s + t)[b] == t[b - |s|];
      }
    }
  }

  /** A strictly increasing list has no repeats. */
  lemma IncreasingHasNoDups(s: seq<int>)
    requires StrictlyIncreasing(s)
    ensures NoDups(s)
  {
    forall a, b | 0 <= a < b < |s| ensures s[a] != s[b] {
      assert s[a] < s[b];
    }
  }

  /** Sums of pointwise equal summands are equal. */
  lemma SumEqual<T>(s: seq<T>, f: T -> real, g: T -> real)
    requires forall x :: x in s ==> f(x) == g(x)
    ensures Sum(s, f) == Sum(s, g)
  {
    SumLe(s, f, g);
    SumLe(s, g, f);
  }

  /** A sum of non-negative summands is non-negative. */
  lemma SumNonNegative<T>(s: seq<T>, f: T -> real)
    requires forall x :: x in s ==> f(x) >= 0.0
    ensures Sum(s, f) >= 0.0
  {
    SumConst(s, Zero<T>(), 0.0);
    SumLe(s, Zero<T>(), f);
  }

  function Zero<T>(): T -> real {
    _ => 0.0
  }
}
