/**
 * Explicit folds standing in for the database's aggregate queries.
 *
 * A grouped query `values(<key>).annotate(Sum(<val>))` is modelled by a key
 * function `key: T -> Option<K>` (None when a row takes no part, e.g. it was
 * excluded by a filter) and a value function `val: T -> int`:
 *   - DistinctKeys lists the groups, one per key, in order of first occurrence;
 *   - KeyedTotal is the SUM over the rows of one group;
 *   - KeyedSum is the SUM over every row that belongs to some group.
 * All folds consume the sequence from its end, so that `xs[..i+1]` unfolds to
 * `xs[..i]` plus one row, matching loops that walk the rows in order.
 */
module Aggregates {
  import opened Wrappers

  /** Sum of `val` over every row. */
  function Total<T>(xs: seq<T>, val: T -> int): int
  {
    if xs == [] then 0 else Total(xs[..|xs| - 1], val) + val(xs[|xs| - 1])
  }

  /** Sum of `val` over the rows that `key` puts in group `k`. */
  function KeyedTotal<T, K(==)>(xs: seq<T>, key: T -> Option<K>, val: T -> int, k: K): int
  {
    if xs == [] then 0
    else KeyedTotal(xs[..|xs| - 1], key, val, k) + (if key(xs[|xs| - 1]) == Some(k) then val(xs[|xs| - 1]) else 0)
  }

  /** Sum of `val` over the rows that belong to any group. */
  function KeyedSum<T, K>(xs: seq<T>, key: T -> Option<K>, val: T -> int): int
  {
    if xs == [] then 0
    else KeyedSum(xs[..|xs| - 1], key, val) + (if key(xs[|xs| - 1]).Some? then val(xs[|xs| - 1]) else 0)
  }

  /** The keys that occur, each once, in order of first occurrence. */
  function DistinctKeys<T, K(==)>(xs: seq<T>, key: T -> Option<K>): seq<K>
  {
    if xs == [] then []
    else
      var ks := DistinctKeys(xs[..|xs| - 1], key);
      var last := key(xs[|xs| - 1]);
      if last.Some? && last.value !in ks then ks + [last.value] else ks
  }

  /** Sum, over the keys `ks`, of each key's group total. */
  function SumOverKeys<T, K(==)>(xs: seq<T>, key: T -> Option<K>, val: T -> int, ks: seq<K>): int
  {
    if ks == [] then 0
    else SumOverKeys(xs, key, val, ks[..|ks| - 1]) + KeyedTotal(xs, key, val, ks[|ks| - 1])
  }

  ghost predicate Distinct<K>(ks: seq<K>)
  {
    forall i, j :: 0 <= i < j < |ks| ==> ks[i] != ks[j]
  }

  /** Every key that some row carries is among `ks`. */
  ghost predicate Covers<T, K>(xs: seq<T>, key: T -> Option<K>, ks: seq<K>)
  {
    forall i :: 0 <= i < |xs| && key(xs[i]).Some? ==> key(xs[i]).value in ks
  }

  /** Some row carries key `k`. */
  ghost predicate Occurs<T, K>(xs: seq<T>, key: T -> Option<K>, k: K)
  {
    exists i :: 0 <= i < |xs| && key(xs[i]) == Some(k)
  }

  /** Index of the first row that carries key `k`. */
  function FirstIndex<T, K(==)>(xs: seq<T>, key: T -> Option<K>, k: K): (i: nat)
    requires k in DistinctKeys(xs, key)
    ensures i < |xs| && key(xs[i]) == Some(k)
    ensures forall j :: 0 <= j < i ==> key(xs[j]) != Some(k)
  {
    var init := xs[..|xs| - 1];
    if k in DistinctKeys(init, key) then
      var i := FirstIndex(init, key, k);
      assert forall j :: 0 <= j < i ==> xs[j] == init[j];
      i
    else
      DistinctKeysOccur(init, key, k);
      assert forall j :: 0 <= j < |xs| - 1 ==> xs[j] == init[j];
      |xs| - 1
  }

  // ---------------------------------------------------------------------------
  // The list of groups

  /** A key is listed exactly when some row carries it. */
  lemma {:induction false} DistinctKeysOccur<T, K>(xs: seq<T>, key: T -> Option<K>, k: K)
    ensures k in DistinctKeys(xs, key) <==> Occurs(xs, key, k)
  {
    if xs != [] {
      var init := xs[..|xs| - 1];
      DistinctKeysOccur(init, key, k);
      if Occurs(init, key, k) {
        var i :| 0 <= i < |init| && key(init[i]) == Some(k);
        assert xs[i] == init[i];
      }
      if Occurs(xs, key, k) {
        var i :| 0 <= i < |xs| && key(xs[i]) == Some(k);
        if i < |init| {
          assert init[i] == xs[i];
        }
      }
    }
  }

  /** No key is listed twice. */
  lemma {:induction false} DistinctKeysDistinct<T, K>(xs: seq<T>, key: T -> Option<K>)
    ensures Distinct(DistinctKeys(xs, key))
  {
    if xs != [] {
      DistinctKeysDistinct(xs[..|xs| - 1], key);
    }
  }

  /** The listed keys cover every row. */
  lemma {:induction false} DistinctKeysCover<T, K>(xs: seq<T>, key: T -> Option<K>)
    ensures Covers(xs, key, DistinctKeys(xs, key))
  {
    forall i | 0 <= i < |xs| && key(xs[i]).Some?
      ensures key(xs[i]).value in DistinctKeys(xs, key)
    {
      DistinctKeysOccur(xs, key, key(xs[i]).value);
    }
  }

  // ---------------------------------------------------------------------------
  // Conservation: the group totals add up to the grand total

  /** Adding one row to the input adds its value to the sum over `ks` once, if its key is listed. */
  lemma {:induction false} SumOverKeysSnoc<T, K>(xs: seq<T>, x: T, key: T -> Option<K>, val: T -> int, ks: seq<K>)
    requires Distinct(ks)
    ensures SumOverKeys(xs + [x], key, val, ks)
         == SumOverKeys(xs, key, val, ks) + (if key(x).Some? && key(x).value in ks then val(x) else 0)
  {
    if ks != [] {
      var init := ks[..|ks| - 1];
      assert Distinct(init);
      SumOverKeysSnoc(xs, x, key, val, init);
      assert (xs + [x])[..|xs + [x]| - 1] == xs;
      assert key(x).Some? && key(x).value in init ==> key(x).value != ks[|ks| - 1];
      assert key(x).Some? && key(x).value in ks && key(x).value !in init ==> key(x).value == ks[|ks| - 1];
    }
  }

  /** Over keys that are distinct and cover every row, the group totals add up to the sum over all grouped rows. */
  lemma {:induction false} Partition<T, K>(xs: seq<T>, key: T -> Option<K>, val: T -> int, ks: seq<K>)
    requires Distinct(ks) && Covers(xs, key, ks)
    ensures SumOverKeys(xs, key, val, ks) == KeyedSum(xs, key, val)
  {
    if xs == [] {
      SumOverKeysEmpty(key, val, ks);
    } else {
      var init, x := xs[..|xs| - 1], xs[|xs| - 1];
      assert init + [x] == xs;
      assert Covers(init, key, ks) by {
        forall i | 0 <= i < |init| && key(init[i]).Some? ensures key(init[i]).value in ks {
          assert init[i] == xs[i];
        }
      }
      Partition(init, key, val, ks);
      SumOverKeysSnoc(init, x, key, val, ks);
    }
  }

  lemma {:induction false} SumOverKeysEmpty<T, K>(key: T -> Option<K>, val: T -> int, ks: seq<K>)
    ensures SumOverKeys([], key, val, ks) == 0
  {
    if ks != [] {
      SumOverKeysEmpty(key, val, ks[..|ks| - 1]);
    }
  }

  /** The groups listed by DistinctKeys add up to the sum over all grouped rows. */
  lemma GroupTotalsConserved<T, K>(xs: seq<T>, key: T -> Option<K>, val: T -> int)
    ensures SumOverKeys(xs, key, val, DistinctKeys(xs, key)) == KeyedSum(xs, key, val)
  {
    DistinctKeysDistinct(xs, key);
    DistinctKeysCover(xs, key);
    Partition(xs, key, val, DistinctKeys(xs, key));
  }

  // ---------------------------------------------------------------------------
  // Small facts about the folds

  /** A key that no row carries has total 0 (an empty group sums to zero). */
  lemma {:induction false} KeyedTotalAbsent<T, K>(xs: seq<T>, key: T -> Option<K>, val: T -> int, k: K)
    requires !Occurs(xs, key, k)
    ensures KeyedTotal(xs, key, val, k) == 0
  {
    if xs != [] {
      var init := xs[..|xs| - 1];
      assert !Occurs(init, key, k) by {
        forall i | 0 <= i < |init| ensures key(init[i]) != Some(k) {
          assert init[i] == xs[i];
        }
      }
      KeyedTotalAbsent(init, key, val, k);
    }
  }

  /** When every row belongs to a group, the grouped sum is the plain sum. */
  lemma {:induction false} KeyedSumOfAll<T, K>(xs: seq<T>, key: T -> Option<K>, val: T -> int)
    requires forall i :: 0 <= i < |xs| ==> key(xs[i]).Some?
    ensures KeyedSum(xs, key, val) == Total(xs, val)
  {
    if xs != [] {
      var init := xs[..|xs| - 1];
      assert forall i :: 0 <= i < |init| ==> init[i] == xs[i];
      KeyedSumOfAll(init, key, val);
    }
  }

  /** Two groupings that select the same rows and agree on their values give the same grouped sum. */
  lemma {:induction false} KeyedSumCongruent<T, K, L>(xs: seq<T>, key1: T -> Option<K>, val1: T -> int, key2: T -> Option<L>, val2: T -> int)
    requires forall i :: 0 <= i < |xs| ==> key1(xs[i]).Some? == key2(xs[i]).Some?
    requires forall i :: 0 <= i < |xs| && key1(xs[i]).Some? ==> val1(xs[i]) == val2(xs[i])
    ensures KeyedSum(xs, key1, val1) == KeyedSum(xs, key2, val2)
  {
    if xs != [] {
      var init := xs[..|xs| - 1];
      assert forall i :: 0 <= i < |init| ==> init[i] == xs[i];
      KeyedSumCongruent(init, key1, val1, key2, val2);
    }
  }

  /** A group total of a difference is the difference of the group totals. */
  lemma {:induction false} KeyedTotalDifference<T, K>(xs: seq<T>, key: T -> Option<K>, a: T -> int, b: T -> int, d: T -> int, k: K)
    requires forall i :: 0 <= i < |xs| ==> d(xs[i]) == a(xs[i]) - b(xs[i])
    ensures KeyedTotal(xs, key, d, k) == KeyedTotal(xs, key, a, k) - KeyedTotal(xs, key, b, k)
  {
    if xs != [] {
      var init := xs[..|xs| - 1];
      assert forall i :: 0 <= i < |init| ==> init[i] == xs[i];
      KeyedTotalDifference(init, key, a, b, d, k);
    }
  }

  // ---------------------------------------------------------------------------
  // Regrouping: totals of fine groups gathered into coarser groups

  /** The coarse group a row falls in, when fine key `k` belongs to coarse group `g(k)`. */
  function Coarsen<T, K, L>(key: T -> Option<K>, g: K -> L): T -> Option<L>
  {
    (x: T) => if key(x).Some? then Some(g(key(x).value)) else None
  }

  /** Sum, over the fine keys `ks` that `g` maps to `c`, of each fine group's total. */
  function SumOverKeysIn<T, K(==), L(==)>(xs: seq<T>, key: T -> Option<K>, val: T -> int, ks: seq<K>, g: K -> L, c: L): int
  {
    if ks == [] then 0
    else
      var last := ks[|ks| - 1];
      SumOverKeysIn(xs, key, val, ks[..|ks| - 1], g, c) + (if g(last) == c then KeyedTotal(xs, key, val, last) else 0)
  }

  lemma {:induction false} SumOverKeysInSnoc<T, K, L>(xs: seq<T>, x: T, key: T -> Option<K>, val: T -> int, ks: seq<K>, g: K -> L, c: L)
    requires Distinct(ks)
    ensures SumOverKeysIn(xs + [x], key, val, ks, g, c)
         == SumOverKeysIn(xs, key, val, ks, g, c)
            + (if key(x).Some? && key(x).value in ks && g(key(x).value) == c then val(x) else 0)
  {
    if ks != [] {
      var init := ks[..|ks| - 1];
      assert Distinct(init);
      SumOverKeysInSnoc(xs, x, key, val, init, g, c);
      assert (xs + [x])[..|xs + [x]| - 1] == xs;
      assert key(x).Some? && key(x).value in init ==> key(x).value != ks[|ks| - 1];
      assert key(x).Some? && key(x).value in ks && key(x).value !in init ==> key(x).value == ks[|ks| - 1];
    }
  }

  lemma {:induction false} SumOverKeysInEmpty<T, K, L>(key: T -> Option<K>, val: T -> int, ks: seq<K>, g: K -> L, c: L)
    ensures SumOverKeysIn([], key, val, ks, g, c) == 0
  {
    if ks != [] {
      SumOverKeysInEmpty(key, val, ks[..|ks| - 1], g, c);
    }
  }

  /** Over distinct fine keys covering every row, the fine totals inside a coarse group add up to the coarse group's total. */
  lemma {:induction false} Regroup<T, K, L>(xs: seq<T>, key: T -> Option<K>, val: T -> int, ks: seq<K>, g: K -> L, c: L)
    requires Distinct(ks) && Covers(xs, key, ks)
    ensures SumOverKeysIn(xs, key, val, ks, g, c) == KeyedTotal(xs, Coarsen(key, g), val, c)
  {
    if xs == [] {
      SumOverKeysInEmpty(key, val, ks, g, c);
    } else {
      var init, x := xs[..|xs| - 1], xs[|xs| - 1];
      assert init + [x] == xs;
      assert Covers(init, key, ks) by {
        forall i | 0 <= i < |init| && key(init[i]).Some? ensures key(init[i]).value in ks {
          assert init[i] == xs[i];
        }
      }
      Regroup(init, key, val, ks, g, c);
      SumOverKeysInSnoc(init, x, key, val, ks, g, c);
    }
  }

  // ---------------------------------------------------------------------------
  // Result rows built from a grouping

  /** `rows` name, through `keyOf`, exactly the keys that some row of `xs` carries, and each of them once. */
  ghost predicate ListsEachKeyOnce<R, T, K>(rows: seq<R>, keyOf: R -> K, xs: seq<T>, key: T -> Option<K>)
  {
    && (forall i :: 0 <= i < |rows| ==> Occurs(xs, key, keyOf(rows[i])))
    && (forall j :: 0 <= j < |xs| && key(xs[j]).Some? ==> exists i :: 0 <= i < |rows| && Some(keyOf(rows[i])) == key(xs[j]))
    && (forall i, j :: 0 <= i < j < |rows| ==> keyOf(rows[i]) != keyOf(rows[j]))
  }

  /** Each of `rows` holds, under `f`, the `val` total of the group of its own key. */
  ghost predicate HoldsGroupTotals<R, T, K>(rows: seq<R>, keyOf: R -> K, f: R -> int, xs: seq<T>, key: T -> Option<K>, val: T -> int)
  {
    forall i :: 0 <= i < |rows| ==> f(rows[i]) == KeyedTotal(xs, key, val, keyOf(rows[i]))
  }

  /** Rows built one per listed key, in listing order, list each key that occurs once and nothing else. */
  lemma ListedByDistinctKeys<R, T, K>(rows: seq<R>, keyOf: R -> K, xs: seq<T>, key: T -> Option<K>)
    requires |rows| == |DistinctKeys(xs, key)|
    requires forall i :: 0 <= i < |rows| ==> keyOf(rows[i]) == DistinctKeys(xs, key)[i]
    ensures ListsEachKeyOnce(rows, keyOf, xs, key)
  {
    var ks := DistinctKeys(xs, key);
    forall i | 0 <= i < |rows| ensures Occurs(xs, key, keyOf(rows[i])) {
      DistinctKeysOccur(xs, key, ks[i]);
    }
    forall j | 0 <= j < |xs| && key(xs[j]).Some?
      ensures exists i :: 0 <= i < |rows| && Some(keyOf(rows[i])) == key(xs[j])
    {
      DistinctKeysOccur(xs, key, key(xs[j]).value);
      var i :| 0 <= i < |ks| && ks[i] == key(xs[j]).value;
      assert Some(keyOf(rows[i])) == key(xs[j]);
    }
    DistinctKeysDistinct(xs, key);
  }

  /** Rows holding the group totals of the keys `ks`, in that order, add up to the sum over those keys. */
  lemma {:induction false} TotalOfKeyedRows<R, T, K>(rows: seq<R>, f: R -> int, xs: seq<T>, key: T -> Option<K>, val: T -> int, ks: seq<K>)
    requires |rows| == |ks|
    requires forall i :: 0 <= i < |rows| ==> f(rows[i]) == KeyedTotal(xs, key, val, ks[i])
    ensures Total(rows, f) == SumOverKeys(xs, key, val, ks)
  {
    if rows != [] {
      TotalOfKeyedRows(rows[..|rows| - 1], f, xs, key, val, ks[..|ks| - 1]);
    }
  }

  /**
   * Whatever their order, rows that list each occurring key once and hold
   * their groups' totals add up to the sum over every grouped row: no row is
   * lost and none is counted twice.
   */
  lemma GroupRowsConserved<R, T, K>(rows: seq<R>, keyOf: R -> K, f: R -> int, xs: seq<T>, key: T -> Option<K>, val: T -> int)
    requires ListsEachKeyOnce(rows, keyOf, xs, key)
    requires HoldsGroupTotals(rows, keyOf, f, xs, key, val)
    ensures Total(rows, f) == KeyedSum(xs, key, val)
  {
    var ks := seq(|rows|, i requires 0 <= i < |rows| => keyOf(rows[i]));
    forall j | 0 <= j < |xs| && key(xs[j]).Some? ensures key(xs[j]).value in ks {
      var i :| 0 <= i < |rows| && Some(keyOf(rows[i])) == key(xs[j]);
      assert ks[i] == key(xs[j]).value;
    }
    TotalOfKeyedRows(rows, f, xs, key, val, ks);
    Partition(xs, key, val, ks);
  }

  /** Summing a concatenation sums its two parts. */
  lemma {:induction false} TotalConcat<T>(a: seq<T>, b: seq<T>, val: T -> int)
    ensures Total(a + b, val) == Total(a, val) + Total(b, val)
  {
    if b == [] {
      assert a + b == a;
    } else {
      assert (a + b)[..|a + b| - 1] == a + b[..|b| - 1];
      TotalConcat(a, b[..|b| - 1], val);
    }
  }

  /** A sum of differences is the difference of the sums. */
  lemma {:induction false} TotalDifference<T>(xs: seq<T>, a: T -> int, b: T -> int, d: T -> int)
    requires forall i :: 0 <= i < |xs| ==> d(xs[i]) == a(xs[i]) - b(xs[i])
    ensures Total(xs, d) == Total(xs, a) - Total(xs, b)
  {
    if xs != [] {
      var init := xs[..|xs| - 1];
      assert forall i :: 0 <= i < |init| ==> init[i] == xs[i];
      TotalDifference(init, a, b, d);
    }
  }

  lemma {:induction false} TotalOfOne<T>(x: T, val: T -> int)
    ensures Total([x], val) == val(x)
  {
    assert [x][..0] == [];
  }
}
