/**
 * Row-level meaning of the SQL statements the storage layer issues.
 * A table is the sequence of its rows in insertion order; every table's
 * `createdAt` column grows with that order, so `ORDER BY createdAt DESC`
 * means reading the sequence from the back.
 */
module Tables {
  import opened Wrappers

  /**
   * A table with a serial primary key `id` and a `createdAt` column `time`:
   * both grow strictly along the table, and both are below the next serial
   * value and the clock.
   */
  ghost predicate Serial<T>(rows: seq<T>, id: T -> int, time: T -> int, nextId: int, clock: int)
  {
    Ascending(rows, id) && Ascending(rows, time) && Below(rows, id, nextId) && Below(rows, time, clock)
  }

  /** Inserting a row stamped with the next serial value and the clock keeps the table serial. */
  lemma SerialAppend<T>(rows: seq<T>, x: T, id: T -> int, time: T -> int, nextId: int, clock: int)
    requires Serial(rows, id, time, nextId, clock)
    requires id(x) == nextId && time(x) == clock
    ensures Serial(rows + [x], id, time, nextId + 1, clock + 1)
  {
    var r := rows + [x];
    forall i, j | 0 <= i < j < |r|
      ensures id(r[i]) < id(r[j]) && time(r[i]) < time(r[j])
    {
      if j == |rows| { assert r[i] in rows; }
    }
  }

  /** A later clock bounds the same timestamps. */
  lemma SerialLater<T>(rows: seq<T>, id: T -> int, time: T -> int, nextId: int, clock: int, later: int)
    requires Serial(rows, id, time, nextId, clock) && clock <= later
    ensures Serial(rows, id, time, nextId, later)
  {
  }

  /** Rewriting rows without touching their id and timestamp keeps a table serial. */
  lemma SerialPointwise<T>(rows: seq<T>, rows': seq<T>, id: T -> int, time: T -> int, nextId: int, clock: int)
    requires Serial(rows, id, time, nextId, clock)
    requires |rows'| == |rows|
    requires forall i :: 0 <= i < |rows| ==> id(rows'[i]) == id(rows[i]) && time(rows'[i]) == time(rows[i])
    ensures Serial(rows', id, time, nextId, clock)
  {
    forall x | x in rows'
      ensures id(x) < nextId && time(x) < clock
    {
      var i :| 0 <= i < |rows'| && rows'[i] == x;
      assert rows[i] in rows;
    }
  }

  /** Deleting rows keeps a table serial. */
  lemma SerialWhere<T>(rows: seq<T>, keep: T -> bool, id: T -> int, time: T -> int, nextId: int, clock: int)
    requires Serial(rows, id, time, nextId, clock)
    ensures Serial(Where(rows, keep), id, time, nextId, clock)
  {
    WhereAscending(rows, keep, id);
    WhereAscending(rows, keep, time);
  }

  /** `key` grows strictly along the table. */
  ghost predicate Ascending<T>(rows: seq<T>, key: T -> int)
  {
    forall i, j :: 0 <= i < j < |rows| ==> key(rows[i]) < key(rows[j])
  }

  /** `key` shrinks strictly along the sequence: newest first. */
  ghost predicate Descending<T>(rows: seq<T>, key: T -> int)
  {
    forall i, j :: 0 <= i < j < |rows| ==> key(rows[i]) > key(rows[j])
  }

  /** Every row's `key` is below `bound` (the next serial value, or the clock). */
  ghost predicate Below<T>(rows: seq<T>, key: T -> int, bound: int)
  {
    forall x :: x in rows ==> key(x) < bound
  }

  /** No two rows share a `key` (a UNIQUE column). */
  ghost predicate Distinct<T, K>(rows: seq<T>, key: T -> K)
  {
    forall i, j :: 0 <= i < j < |rows| ==> key(rows[i]) != key(rows[j])
  }

  /** A rewrite that keeps every row's key keeps the keys distinct. */
  lemma DistinctPointwise<T, K>(rows: seq<T>, rows': seq<T>, key: T -> K)
    requires Distinct(rows, key)
    requires |rows'| == |rows|
    requires forall i :: 0 <= i < |rows| ==> key(rows'[i]) == key(rows[i])
    ensures Distinct(rows', key)
  {
  }

  /** `SELECT * WHERE p ORDER BY createdAt DESC`: the matching rows, newest first. */
  function Select<T>(rows: seq<T>, p: T -> bool): (r: seq<T>)
    ensures |r| <= |rows|
    ensures forall x :: x in r ==> x in rows && p(x)
    ensures forall x :: x in rows && p(x) ==> x in r
    ensures (forall x :: x in rows ==> p(x)) ==> |r| == |rows|
    decreases |rows|
  {
    if |rows| == 0 then []
    else
      var init, last := rows[..|rows| - 1], rows[|rows| - 1];
      assert rows == init + [last];
      (if p(last) then [last] else []) + Select(init, p)
  }

  /** Reading an ascending table newest first gives a descending result. */
  lemma {:induction false} SelectNewestFirst<T>(rows: seq<T>, p: T -> bool, key: T -> int)
    requires Ascending(rows, key)
    ensures Descending(Select(rows, p), key)
    decreases |rows|
  {
    if |rows| > 0 {
      var init, last := rows[..|rows| - 1], rows[|rows| - 1];
      SelectNewestFirst(init, p, key);
      var rest := Select(init, p);
      forall x | x in rest
        ensures key(x) < key(last)
      {
        var k :| 0 <= k < |init| && init[k] == x;
        assert rows[k] == x;
      }
    }
  }

  /** On a table without repeated keys, a selection lists each matching row exactly once. */
  lemma {:induction false} SelectOnce<T, K>(rows: seq<T>, p: T -> bool, key: T -> K, x: T)
    requires Distinct(rows, key)
    requires x in rows && p(x)
    ensures multiset(Select(rows, p))[x] == 1
    decreases |rows|
  {
    var init, last := rows[..|rows| - 1], rows[|rows| - 1];
    assert rows == init + [last];
    if last == x {
      forall y | y in init
        ensures y != x
      {
        var k :| 0 <= k < |init| && init[k] == y;
        assert key(rows[k]) != key(rows[|rows| - 1]);
      }
      assert x !in Select(init, p);
    } else {
      SelectOnce(init, p, key, x);
    }
  }

  /** On a table without repeated keys, no row occurs twice in a selection. */
  lemma SelectNoRepeats<T, K>(rows: seq<T>, p: T -> bool, key: T -> K)
    requires Distinct(rows, key)
    ensures forall x :: x in Select(rows, p) ==> multiset(Select(rows, p))[x] == 1
  {
    forall x | x in Select(rows, p)
      ensures multiset(Select(rows, p))[x] == 1
    {
      SelectOnce(rows, p, key, x);
    }
  }

  /** `SELECT count(*) WHERE p`. */
  function Count<T>(rows: seq<T>, p: T -> bool): (n: nat)
    ensures n <= |rows|
    ensures n == 0 <==> forall x :: x in rows ==> !p(x)
    ensures n == |rows| <==> forall x :: x in rows ==> p(x)
    ensures n == |Where(rows, p)|
    decreases |rows|
  {
    if |rows| == 0 then 0
    else
      assert rows == [rows[0]] + rows[1..];
      (if p(rows[0]) then 1 else 0) + Count(rows[1..], p)
  }

  /** `const [row] = SELECT * WHERE key = k`: the first row with that key, if any. */
  function FindKey<T, K(==)>(rows: seq<T>, key: T -> K, k: K): (r: Option<T>)
    ensures r.Some? ==> r.value in rows && key(r.value) == k
    ensures r.None? <==> forall x :: x in rows ==> key(x) != k
    decreases |rows|
  {
    if |rows| == 0 then None
    else if key(rows[0]) == k then Some(rows[0])
    else
      assert rows == [rows[0]] + rows[1..];
      FindKey(rows[1..], key, k)
  }

  /** On a column without repeated values the lookup returns THE row with that key. */
  lemma {:induction false} FindKeyUnique<T, K>(rows: seq<T>, key: T -> K, k: K)
    requires Distinct(rows, key)
    ensures forall x :: x in rows && key(x) == k ==> FindKey(rows, key, k) == Some(x)
    decreases |rows|
  {
    if |rows| > 0 {
      assert rows == [rows[0]] + rows[1..];
      if key(rows[0]) != k {
        FindKeyUnique(rows[1..], key, k);
      }
    }
  }

  /** A strictly growing key never repeats. */
  lemma AscendingDistinct<T>(rows: seq<T>, key: T -> int)
    requires Ascending(rows, key)
    ensures Distinct(rows, key)
  {
  }

  /** `UPDATE SET f WHERE p`: matching rows are rewritten by `f`, the others stay. */
  function Update<T>(rows: seq<T>, p: T -> bool, f: T -> T): (r: seq<T>)
    ensures |r| == |rows|
    ensures forall i :: 0 <= i < |rows| ==> r[i] == if p(rows[i]) then f(rows[i]) else rows[i]
    decreases |rows|
  {
    if |rows| == 0 then []
    else [if p(rows[0]) then f(rows[0]) else rows[0]] + Update(rows[1..], p, f)
  }

  /** The rows satisfying `keep`, in table order; `DELETE WHERE q` keeps those where `!q`. */
  function Where<T>(rows: seq<T>, keep: T -> bool): (r: seq<T>)
    ensures |r| <= |rows|
    ensures forall x :: x in r ==> x in rows && keep(x)
    ensures forall x :: x in rows && keep(x) ==> x in r
    decreases |rows|
  {
    if |rows| == 0 then []
    else
      assert rows == [rows[0]] + rows[1..];
      (if keep(rows[0]) then [rows[0]] else []) + Where(rows[1..], keep)
  }

  /** Deleting rows keeps an ascending column ascending. */
  lemma {:induction false} WhereAscending<T>(rows: seq<T>, keep: T -> bool, key: T -> int)
    requires Ascending(rows, key)
    ensures Ascending(Where(rows, keep), key)
    decreases |rows|
  {
    if |rows| > 0 {
      var rest := Where(rows[1..], keep);
      WhereAscending(rows[1..], keep, key);
      forall x | x in rest
        ensures key(rows[0]) < key(x)
      {
        var k :| 0 <= k < |rows[1..]| && rows[1..][k] == x;
        assert rows[k + 1] == x;
      }
    }
  }
}
