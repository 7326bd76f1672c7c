/**
 * The table operations the engine is built from: order-preserving row
 * filters, group-by with a summed column, sorted group keys, and the
 * bookkeeping that shows a grouped sum adds back up to the ungrouped one.
 */
module Tables {
  import opened Money

  /** `df[mask]`: the rows that satisfy `keep`, in their original order. */
  function Filter<T(!new)>(s: seq<T>, keep: T -> bool): (r: seq<T>)
    ensures |r| <= |s|
    ensures forall x :: x in r <==> x in s && keep(x)
  {
    if s == [] then []
    else if keep(s[0]) then [s[0]] + Filter(s[1..], keep)
    else Filter(s[1..], keep)
  }

  /** A mask every row satisfies keeps the whole table. */
  lemma {:induction false} FilterAll<T(!new)>(s: seq<T>, keep: T -> bool)
    requires forall i :: 0 <= i < |s| ==> keep(s[i])
    ensures Filter(s, keep) == s
  {
    if s != [] {
      FilterAll(s[1..], keep);
    }
  }

  /** `a` is `b` with some rows left out and the rest in the same order. */
  predicate IsSubsequence<T(==)>(a: seq<T>, b: seq<T>)
    decreases |b|
  {
    a == [] || (b != [] && ((a[0] == b[0] && IsSubsequence(a[1..], b[1..])) || IsSubsequence(a, b[1..])))
  }

  lemma {:induction false} FilterIsSubsequence<T(!new)>(s: seq<T>, keep: T -> bool)
    ensures IsSubsequence(Filter(s, keep), s)
  {
    if s != [] {
      FilterIsSubsequence(s[1..], keep);
    }
  }

  /** A filter keeps every selected row as many times as it occurs and drops
      every other row. */
  lemma {:induction false} FilterCounts<T(!new)>(s: seq<T>, keep: T -> bool)
    ensures forall x :: multiset(Filter(s, keep))[x] == if keep(x) then multiset(s)[x] else 0
  {
    if s != [] {
      FilterCounts(s[1..], keep);
      assert s == [s[0]] + s[1..];
    }
  }

  lemma {:induction false} FilterAppend<T(!new)>(a: seq<T>, b: seq<T>, keep: T -> bool)
    ensures Filter(a + b, keep) == Filter(a, keep) + Filter(b, keep)
  {
    if a == [] {
      assert a + b == b;
    } else {
      assert (a + b)[1..] == a[1..] + b;
      FilterAppend(a[1..], b, keep);
    }
  }

  /** One row of a two-column table: a grouping key and an integer column. */
  datatype Keyed = Keyed(key: int, weight: nat)

  /** Sum of the whole integer column. */
  function Weights(rows: seq<Keyed>): nat
  {
    if rows == [] then 0 else rows[0].weight + Weights(rows[1..])
  }

  /** `groupby(key).weight.sum()` for one key: the sum over the rows with that key. */
  function GroupSum(rows: seq<Keyed>, k: int): (r: nat)
    ensures r <= Weights(rows)
  {
    if rows == [] then 0
    else (if rows[0].key == k then rows[0].weight else 0) + GroupSum(rows[1..], k)
  }

  /** Sum over the rows whose key lies in `keys`. */
  function WeightsIn(rows: seq<Keyed>, keys: set<int>): nat
  {
    if rows == [] then 0
    else (if rows[0].key in keys then rows[0].weight else 0) + WeightsIn(rows[1..], keys)
  }

  predicate HasKey(rows: seq<Keyed>, k: int)
  {
    exists i :: 0 <= i < |rows| && rows[i].key == k
  }

  predicate StrictlyIncreasing(s: seq<int>)
  {
    forall i, j :: 0 <= i < j < |s| ==> s[i] < s[j]
  }

  /** Adds `x` to a strictly increasing sequence unless it is already there. */
  function Insert(sorted: seq<int>, x: int): (r: seq<int>)
    requires StrictlyIncreasing(sorted)
    ensures StrictlyIncreasing(r)
    ensures forall y :: y in r <==> y in sorted || y == x
  {
    if sorted == [] then [x]
    else if x < sorted[0] then [x] + sorted
    else if x == sorted[0] then sorted
    else
      var tail := Insert(sorted[1..], x);
      assert forall j :: 0 <= j < |tail| ==> sorted[0] < tail[j] by {
        forall j | 0 <= j < |tail| ensures sorted[0] < tail[j] {
          assert tail[j] in sorted[1..] || tail[j] == x;
        }
      }
      [sorted[0]] + tail
  }

  /** The group keys of `groupby(key)`: each key once, in ascending order. */
  function SortedKeys(rows: seq<Keyed>): (r: seq<int>)
    ensures StrictlyIncreasing(r)
    ensures forall k :: k in r <==> HasKey(rows, k)
  {
    if rows == [] then []
    else
      var r := Insert(SortedKeys(rows[1..]), rows[0].key);
      assert forall k :: HasKey(rows, k) <==> k == rows[0].key || HasKey(rows[1..], k) by {
        forall k | HasKey(rows, k) && k != rows[0].key ensures HasKey(rows[1..], k) {
          var i :| 0 <= i < |rows| && rows[i].key == k;
          assert rows[1..][i - 1].key == k;
        }
        forall k | HasKey(rows[1..], k) ensures HasKey(rows, k) {
          var i :| 0 <= i < |rows[1..]| && rows[1..][i].key == k;
          assert rows[i + 1].key == k;
        }
        assert rows[0].key == rows[0].key;
        assert 0 < |rows|;
      }
      r
  }

  /** The summed column of `groupby(key).weight.sum()`, one entry per key in `keys`. */
  function GroupTotals(keys: seq<int>, rows: seq<Keyed>): (r: seq<nat>)
    ensures |r| == |keys|
    ensures forall i :: 0 <= i < |keys| ==> r[i] == GroupSum(rows, keys[i])
  {
    if keys == [] then [] else [GroupSum(rows, keys[0])] + GroupTotals(keys[1..], rows)
  }

  lemma {:induction false} WeightsInSplit(rows: seq<Keyed>, k: int, rest: set<int>)
    requires k !in rest
    ensures WeightsIn(rows, {k} + rest) == GroupSum(rows, k) + WeightsIn(rows, rest)
  {
    if rows != [] {
      WeightsInSplit(rows[1..], k, rest);
    }
  }

  lemma {:induction false} WeightsInAll(rows: seq<Keyed>, keys: set<int>)
    requires forall i :: 0 <= i < |rows| ==> rows[i].key in keys
    ensures WeightsIn(rows, keys) == Weights(rows)
  {
    if rows != [] {
      WeightsInAll(rows[1..], keys);
    }
  }

  lemma {:induction false} WeightsInNone(rows: seq<Keyed>)
    ensures WeightsIn(rows, {}) == 0
  {
    if rows != [] {
      WeightsInNone(rows[1..]);
    }
  }

  lemma {:induction false} GroupTotalsIn(keys: seq<int>, rows: seq<Keyed>)
    requires StrictlyIncreasing(keys)
    ensures SumNat(GroupTotals(keys, rows)) == WeightsIn(rows, set k | k in keys)
  {
    if keys == [] {
      WeightsInNone(rows);
      assert (set k | k in keys) == {};
    } else {
      GroupTotalsIn(keys[1..], rows);
      assert (set k | k in keys) == {keys[0]} + (set k | k in keys[1..]);
      WeightsInSplit(rows, keys[0], set k | k in keys[1..]);
      assert GroupTotals(keys, rows)[1..] == GroupTotals(keys[1..], rows);
    }
  }

  /** Grouping by key loses nothing: the per-key sums add up to the sum of the
      whole column, whenever every row's key is among the groups. */
  lemma GroupTotalsReconcile(keys: seq<int>, rows: seq<Keyed>)
    requires StrictlyIncreasing(keys)
    requires forall i :: 0 <= i < |rows| ==> rows[i].key in keys
    ensures SumNat(GroupTotals(keys, rows)) == Weights(rows)
  {
    GroupTotalsIn(keys, rows);
    WeightsInAll(rows, set k | k in keys);
  }

  /** A key without rows has an empty group. */
  lemma {:induction false} GroupSumMissing(rows: seq<Keyed>, k: int)
    requires !HasKey(rows, k)
    ensures GroupSum(rows, k) == 0
  {
    if rows != [] {
      assert rows[0].key != k;
      GroupSumMissing(rows[1..], k);
    }
  }

  /** Two strictly increasing sequences with the same elements are equal: the
      sorted group keys of a set of keys are determined by the set. */
  lemma {:induction false} SortedUnique(a: seq<int>, b: seq<int>)
    requires StrictlyIncreasing(a) && StrictlyIncreasing(b)
    requires forall x :: x in a <==> x in b
    ensures a == b
  {
    if a != [] {
      assert a[0] in a;
    }
    if b != [] {
      assert b[0] in b;
    }
    if a != [] && b != [] {
      assert a[0] in b && b[0] in a;
      assert a[0] == b[0];
      forall x ensures x in a[1..] <==> x in b[1..] {
        assert x in a[1..] <==> x in a && x != a[0];
        assert x in b[1..] <==> x in b && x != b[0];
      }
      SortedUnique(a[1..], b[1..]);
      assert a == [a[0]] + a[1..] && b == [b[0]] + b[1..];
    }
  }
}
