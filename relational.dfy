/**
  The relational building blocks the report's queries are made of: WHERE
  filters, DISTINCT / GROUP BY keys, the SQL aggregates SUM and AVG, and the
  Python-side `sum` and `statistics.mean` applied to a query's result list.
*/
module Relational {
  import opened Wrappers

  // ---------------------------------------------------------------- SQL side

  /** SQL `SUM(f)` over a row set (every group the report sums is non-empty). */
  function RSum<T(!new)>(rows: seq<T>, f: T -> real): real
  {
    if rows == [] then 0.0 else f(rows[0]) + RSum(rows[1..], f)
  }

  /** SQL `SUM(f)` over an integer column. */
  function ISum<T(!new)>(rows: seq<T>, f: T -> int): int
  {
    if rows == [] then 0 else f(rows[0]) + ISum(rows[1..], f)
  }

  /** SQL `AVG(f)` over a non-empty group. */
  function Avg<T(!new)>(rows: seq<T>, f: T -> real): (r: real)
    requires rows != []
    ensures r * (|rows| as real) == RSum(rows, f)
  {
    RSum(rows, f) / (|rows| as real)
  }

  /** `WHERE key = k`: the rows whose key is `k`, in their original order and multiplicity. */
  function Where<T(!new), K(==)>(rows: seq<T>, key: T -> K, k: K): (r: seq<T>)
    ensures forall x :: x in r <==> x in rows && key(x) == k
  {
    if rows == [] then []
    else (if key(rows[0]) == k then [rows[0]] else []) + Where(rows[1..], key, k)
  }

  /** No value occurs twice. */
  predicate NoDup<K(==)>(ks: seq<K>)
  {
    forall i, j :: 0 <= i < j < |ks| ==> ks[i] != ks[j]
  }

  /**
    `SELECT DISTINCT key`: each key value of `rows` once, in order of first
    occurrence. These are also the groups of `GROUP BY key`.
  */
  function Distinct<T(!new), K(==)>(rows: seq<T>, key: T -> K): (ks: seq<K>)
    ensures NoDup(ks)
    ensures forall x :: x in rows ==> key(x) in ks
    ensures forall k :: k in ks ==> exists x :: x in rows && key(x) == k
  {
    if rows == [] then []
    else
      var front := rows[..|rows| - 1];
      assert rows == front + [rows[|rows| - 1]];
      var ks := Distinct(front, key);
      var k := key(rows[|rows| - 1]);
      if k in ks then ks else ks + [k]
  }

  /** For each key of `ks`, the SUM of `f` over the rows of that key. */
  function SumsFor<T(!new), K(==)>(ks: seq<K>, rows: seq<T>, key: T -> K, f: T -> real): (sums: seq<real>)
    ensures |sums| == |ks|
  {
    if ks == [] then [] else [RSum(Where(rows, key, ks[0]), f)] + SumsFor(ks[1..], rows, key, f)
  }

  /** `SELECT SUM(f) ... GROUP BY key`, as the list of per-group sums. */
  function GroupSums<T(!new), K(==)>(rows: seq<T>, key: T -> K, f: T -> real): (sums: seq<real>)
  {
    SumsFor(Distinct(rows, key), rows, key, f)
  }

  // ------------------------------------------------------------- Python side

  /** Python's built-in `sum` over a list of numbers: 0 for the empty list. */
  function Sum(xs: seq<real>): real
  {
    if xs == [] then 0.0 else xs[0] + Sum(xs[1..])
  }

  /** `statistics.mean`: the arithmetic mean, raising `StatisticsError` on an empty list. */
  function Mean(xs: seq<real>): (r: Result<real>)
    ensures r.Success? <==> xs != []
    ensures r.Failure? ==> r.error == StatisticsError
    ensures r.Success? ==> r.value * (|xs| as real) == Sum(xs)
  {
    if xs == [] then Failure(StatisticsError) else Success(Sum(xs) / (|xs| as real))
  }

  // ------------------------------------------------------------------ lemmas

  /** A WHERE filter keeps each matching row exactly as often as it occurs, and no other row. */
  lemma {:induction false} WhereCount<T(!new), K>(rows: seq<T>, key: T -> K, k: K, x: T)
    ensures multiset(Where(rows, key, k))[x] == if key(x) == k then multiset(rows)[x] else 0
  {
    if rows != [] {
      WhereCount(rows[1..], key, k, x);
      assert rows == [rows[0]] + rows[1..];
    }
  }

  /** The count of a value in a non-empty sequence: its count in the tail, plus one if it is the head. */
  lemma HeadCount<T>(xs: seq<T>, x: T)
    requires xs != []
    ensures multiset(xs)[x] == multiset(xs[1..])[x] + (if xs[0] == x then 1 else 0)
  {
    assert xs == [xs[0]] + xs[1..];
  }

  /** A filter every row passes changes nothing. */
  lemma {:induction false} WhereAll<T(!new), K>(rows: seq<T>, key: T -> K, k: K)
    requires forall x :: x in rows ==> key(x) == k
    ensures Where(rows, key, k) == rows
  {
    if rows != [] {
      WhereAll(rows[1..], key, k);
      assert rows == [rows[0]] + rows[1..];
    }
  }

  /** A filter no row passes leaves nothing. */
  lemma {:induction false} WhereNone<T(!new), K>(rows: seq<T>, key: T -> K, k: K)
    requires forall x :: x in rows ==> key(x) != k
    ensures Where(rows, key, k) == []
  {
    if rows != [] {
      WhereNone(rows[1..], key, k);
    }
  }

  /** A filter distributes over concatenation of row sets. */
  lemma {:induction false} WhereAppend<T(!new), K>(a: seq<T>, b: seq<T>, key: T -> K, k: K)
    ensures Where(a + b, key, k) == Where(a, key, k) + Where(b, key, k)
  {
    if a != [] {
      WhereAppend(a[1..], b, key, k);
      assert (a + b)[1..] == a[1..] + b;
    } else {
      assert a + b == b;
    }
  }

  /** A duplicate-free sequence has as many elements as the set of its elements. */
  lemma {:induction false} NoDupCard<K>(ks: seq<K>)
    requires NoDup(ks)
    ensures |set k | k in ks| == |ks|
  {
    if ks != [] {
      var rest := ks[1..];
      assert NoDup(rest) by {
        forall i, j | 0 <= i < j < |rest| ensures rest[i] != rest[j] {
          assert rest[i] == ks[i + 1] && rest[j] == ks[j + 1];
        }
      }
      NoDupCard(rest);
      assert (set k | k in ks) == {ks[0]} + (set k | k in rest);
      assert ks[0] !in (set k | k in rest);
    }
  }

  /** The set of a sequence's elements, given by membership. */
  lemma SeqElements<K>(ks: seq<K>, keys: set<K>)
    requires forall k :: k in ks <==> k in keys
    ensures (set k | k in ks) == keys
  {
  }

  /** The number of DISTINCT values is the number of different key values among the rows. */
  lemma {:induction false} DistinctCount<T(!new), K>(rows: seq<T>, key: T -> K, keys: set<K>)
    requires forall k :: k in keys <==> exists x :: x in rows && key(x) == k
    ensures |Distinct(rows, key)| == |keys|
  {
    var ks := Distinct(rows, key);
    forall k ensures k in ks <==> k in keys {
      if k in keys {
        var x :| x in rows && key(x) == k;
      }
    }
    SeqElements(ks, keys);
    NoDupCard(ks);
  }

  /** Each row of a grouped query's input gives rise to at least one group. */
  lemma {:induction false} DistinctEmpty<T(!new), K>(rows: seq<T>, key: T -> K)
    ensures Distinct(rows, key) == [] <==> rows == []
  {
    if rows != [] {
      assert key(rows[0]) in Distinct(rows, key);
    }
  }

  /** Every group sum over no rows is 0. */
  lemma {:induction false} SumsForNoRows<T(!new), K>(ks: seq<K>, key: T -> K, f: T -> real)
    ensures Sum(SumsFor(ks, [], key, f)) == 0.0
  {
    if ks != [] {
      SumsForNoRows(ks[1..], key, f);
    }
  }

  /** Dropping a row whose key is not among `ks` leaves every group sum as it was. */
  lemma {:induction false} SumsForSkip<T(!new), K>(ks: seq<K>, rows: seq<T>, key: T -> K, f: T -> real)
    requires rows != [] && key(rows[0]) !in ks
    ensures SumsFor(ks, rows, key, f) == SumsFor(ks, rows[1..], key, f)
  {
    if ks != [] {
      assert Where(rows, key, ks[0]) == Where(rows[1..], key, ks[0]);
      SumsForSkip(ks[1..], rows, key, f);
    }
  }

  /** The first row adds its value to exactly one group: the one of its key. */
  lemma {:induction false} SumsForCons<T(!new), K>(ks: seq<K>, rows: seq<T>, key: T -> K, f: T -> real)
    requires rows != [] && NoDup(ks) && key(rows[0]) in ks
    ensures Sum(SumsFor(ks, rows, key, f)) == f(rows[0]) + Sum(SumsFor(ks, rows[1..], key, f))
  {
    var rest := ks[1..];
    assert ks == [ks[0]] + rest;
    assert NoDup(rest) by {
      forall i, j | 0 <= i < j < |rest| ensures rest[i] != rest[j] {
        assert rest[i] == ks[i + 1] && rest[j] == ks[j + 1];
      }
    }
    if key(rows[0]) == ks[0] {
      var w := Where(rows[1..], key, ks[0]);
      assert Where(rows, key, ks[0]) == [rows[0]] + w;
      assert RSum([rows[0]] + w, f) == f(rows[0]) + RSum(w, f) by {
        assert ([rows[0]] + w)[1..] == w;
      }
      assert key(rows[0]) !in rest;
      SumsForSkip(rest, rows, key, f);
    } else {
      assert Where(rows, key, ks[0]) == Where(rows[1..], key, ks[0]);
      SumsForCons(rest, rows, key, f);
    }
  }

  /** Adding up the group sums of any duplicate-free cover of the keys gives the sum over all rows. */
  lemma {:induction false} SumsForTotal<T(!new), K>(ks: seq<K>, rows: seq<T>, key: T -> K, f: T -> real)
    requires NoDup(ks)
    requires forall x :: x in rows ==> key(x) in ks
    ensures Sum(SumsFor(ks, rows, key, f)) == RSum(rows, f)
  {
    if rows == [] {
      SumsForNoRows(ks, key, f);
    } else {
      SumsForCons(ks, rows, key, f);
      SumsForTotal(ks, rows[1..], key, f);
    }
  }

  /** Summing the per-group sums of a GROUP BY gives the ungrouped SUM. */
  lemma {:induction false} GroupSumsTotal<T(!new), K>(rows: seq<T>, key: T -> K, f: T -> real)
    ensures Sum(GroupSums(rows, key, f)) == RSum(rows, f)
    ensures |GroupSums(rows, key, f)| == |Distinct(rows, key)|
  {
    SumsForTotal(Distinct(rows, key), rows, key, f);
  }

  /** SUM of a difference is the difference of the SUMs. */
  lemma {:induction false} RSumDifference<T(!new)>(rows: seq<T>, f: T -> real, g: T -> real, h: T -> real)
    requires forall x :: x in rows ==> h(x) == f(x) - g(x)
    ensures RSum(rows, h) == RSum(rows, f) - RSum(rows, g)
  {
    if rows != [] {
      RSumDifference(rows[1..], f, g, h);
    }
  }

  /** A SUM of values in [lo, hi) lies between n * lo and n * hi. */
  lemma {:induction false} RSumBounds<T(!new)>(rows: seq<T>, f: T -> real, lo: real, hi: real)
    requires forall x :: x in rows ==> lo <= f(x) < hi
    ensures (|rows| as real) * lo <= RSum(rows, f)
    ensures rows != [] ==> RSum(rows, f) < (|rows| as real) * hi
  {
    if rows != [] {
      var n := |rows[1..]| as real;
      RSumBounds(rows[1..], f, lo, hi);
      assert (n + 1.0) * lo == n * lo + lo;
      assert (n + 1.0) * hi == n * hi + hi;
    }
  }

  /** An AVG of values in [lo, hi) lies in [lo, hi). */
  lemma {:induction false} AvgBounds<T(!new)>(rows: seq<T>, f: T -> real, lo: real, hi: real)
    requires rows != []
    requires forall x :: x in rows ==> lo <= f(x) < hi
    ensures lo <= Avg(rows, f) < hi
  {
    var n := |rows| as real;
    var a := Avg(rows, f);
    RSumBounds(rows, f, lo, hi);
    assert n * (a - lo) >= 0.0;
    assert n * (hi - a) > 0.0;
  }
}
