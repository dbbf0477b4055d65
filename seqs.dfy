/** Generic facts about the sequences that stand for table rows and query results:
    selecting rows (`WHERE`), ordering them (`ORDER BY ... DESC`) and the
    AUTO_INCREMENT key discipline of a table. */
module Seqs {
  import opened Values

  /** The first element of `s` that satisfies `p` (a `SELECT ... LIMIT 1`). */
  function First<T(!new)>(s: seq<T>, p: T -> bool): (r: Option<T>)
    ensures r.Some? ==> r.value in s && p(r.value)
    ensures r.None? <==> forall x :: x in s ==> !p(x)
  {
    if s == [] then None
    else if p(s[0]) then Some(s[0])
    else
      assert forall x :: x in s ==> x == s[0] || x in s[1..];
      First(s[1..], p)
  }

  /** The row `First` picks is the earliest match: every row before it fails `p`. */
  lemma {:induction false} FirstIsEarliest<T(!new)>(s: seq<T>, p: T -> bool)
    requires First(s, p).Some?
    ensures exists i :: 0 <= i < |s| && s[i] == First(s, p).value && forall j :: 0 <= j < i ==> !p(s[j])
  {
    if !p(s[0]) {
      FirstIsEarliest(s[1..], p);
      var i :| 0 <= i < |s[1..]| && s[1..][i] == First(s, p).value && forall j :: 0 <= j < i ==> !p(s[1..][j]);
      assert s[i + 1] == First(s, p).value;
      forall j | 0 <= j < i + 1 ensures !p(s[j]) {
        if j > 0 { assert s[j] == s[1..][j - 1]; }
      }
    } else {
      assert s[0] == First(s, p).value;
    }
  }

  /** The elements of `s` that satisfy `p`, in their original order. */
  function Filter<T(!new)>(s: seq<T>, p: T -> bool): (r: seq<T>)
    ensures |r| <= |s|
    ensures forall x :: x in r <==> x in s && p(x)
  {
    if s == [] then [] else (if p(s[0]) then [s[0]] else []) + Filter(s[1..], p)
  }

  /** Selecting from a concatenation selects from each part, keeping their order. */
  lemma {:induction false} FilterConcat<T(!new)>(a: seq<T>, b: seq<T>, p: T -> bool)
    ensures Filter(a + b, p) == Filter(a, p) + Filter(b, p)
  {
    if a == [] {
      assert a + b == b;
    } else {
      assert (a + b)[0] == a[0];
      assert (a + b)[1..] == a[1..] + b;
      FilterConcat(a[1..], b, p);
    }
  }

  /** A selection that every element passes keeps the sequence as it is. */
  lemma {:induction false} FilterAll<T(!new)>(s: seq<T>, p: T -> bool)
    requires forall x :: x in s ==> p(x)
    ensures Filter(s, p) == s
  {
    if s != [] {
      assert s[0] in s;
      assert forall x :: x in s[1..] ==> x in s;
      FilterAll(s[1..], p);
    }
  }

  // ---------------------------------------------------------------- ordering

  /** `s` is ordered by `key`, largest first. */
  ghost predicate SortedDesc<T>(s: seq<T>, key: T -> int) {
    forall i, j :: 0 <= i < j < |s| ==> key(s[i]) >= key(s[j])
  }

  /** Putting in front an element whose key is at least every other key keeps the order. */
  lemma SortedCons<T>(y: T, t: seq<T>, key: T -> int)
    requires SortedDesc(t, key)
    requires forall k :: 0 <= k < |t| ==> key(t[k]) <= key(y)
    ensures SortedDesc([y] + t, key)
  {
    var r := [y] + t;
    forall i, j | 0 <= i < j < |r| ensures key(r[i]) >= key(r[j]) {
      assert r[j] == t[j - 1];
      if i > 0 {
        assert r[i] == t[i - 1];
      }
    }
  }

  /** Every element of a permutation of `s` plus `x` is `x` or an element of `s`. */
  lemma PermutationBound<T>(x: T, s: seq<T>, t: seq<T>, key: T -> int, bound: int)
    requires multiset(t) == multiset(s) + multiset{x}
    requires key(x) <= bound && forall k :: 0 <= k < |s| ==> key(s[k]) <= bound
    ensures forall k :: 0 <= k < |t| ==> key(t[k]) <= bound
  {
    forall k | 0 <= k < |t| ensures key(t[k]) <= bound {
      assert t[k] in multiset(t);
      if t[k] != x {
        assert t[k] in multiset(s);
        var m :| 0 <= m < |s| && s[m] == t[k];
      }
    }
  }

  /** Inserts `x` into a sequence ordered largest first, before the first element
      whose key is not larger than its own. */
  function InsertDesc<T>(x: T, s: seq<T>, key: T -> int): (r: seq<T>)
    requires SortedDesc(s, key)
    ensures |r| == |s| + 1
    ensures SortedDesc(r, key)
    ensures multiset(r) == multiset(s) + multiset{x}
  {
    if s == [] then [x]
    else if key(x) >= key(s[0]) then
      SortedCons(x, s, key);
      [x] + s
    else
      var tail := InsertDesc(x, s[1..], key);
      assert s == [s[0]] + s[1..];
      assert forall k :: 0 <= k < |s[1..]| ==> key(s[1..][k]) <= key(s[0]) by {
        forall k | 0 <= k < |s[1..]| ensures key(s[1..][k]) <= key(s[0]) {
          assert s[1..][k] == s[k + 1];
        }
      }
      PermutationBound(x, s[1..], tail, key, key(s[0]));
      SortedCons(s[0], tail, key);
      [s[0]] + tail
  }

  /** `ORDER BY key DESC`: a permutation of `s` ordered largest first (rows with equal
      keys keep their relative order here, which an SQL engine does not promise). */
  function SortDesc<T>(s: seq<T>, key: T -> int): (r: seq<T>)
    ensures SortedDesc(r, key)
    ensures multiset(r) == multiset(s)
  {
    if s == [] then []
    else
      assert s == [s[0]] + s[1..];
      InsertDesc(s[0], SortDesc(s[1..], key), key)
  }

  /** Two sequences that are permutations of each other hold the same elements. */
  lemma PermutationSameElements<T>(a: seq<T>, b: seq<T>)
    requires multiset(a) == multiset(b)
    ensures forall x :: x in a <==> x in b
  {
    forall x ensures x in a <==> x in b {
      assert x in a <==> x in multiset(a);
      assert x in b <==> x in multiset(b);
    }
  }

  // ---------------------------------------------------------------- table keys

  /** The key of the `i`-th row. The discipline below is stated through it, so that its
      quantifiers are only instantiated where a proof asks about a row's key. */
  ghost function KeyAt<T>(rows: seq<T>, key: T -> int, i: int): int
    requires 0 <= i < |rows|
  {
    key(rows[i])
  }

  /** The rows of a table with an AUTO_INCREMENT key: keys strictly increase in row
      (insertion) order, and each lies between 1 and the next key to be issued. */
  ghost predicate Keyed<T>(rows: seq<T>, key: T -> int, next: int) {
    && (forall i, j :: 0 <= i < j < |rows| ==> KeyAt(rows, key, i) < KeyAt(rows, key, j))
    && (forall i :: 0 <= i < |rows| ==> 1 <= KeyAt(rows, key, i) < next)
  }

  /** Inserting a row under the next key keeps the discipline. */
  lemma KeyedAppend<T>(rows: seq<T>, key: T -> int, next: int, row: T)
    requires Keyed(rows, key, next) && 1 <= next && key(row) == next
    ensures Keyed(rows + [row], key, next + 1)
  {
    var r := rows + [row];
    forall i | 0 <= i < |r| ensures KeyAt(r, key, i) == if i < |rows| then KeyAt(rows, key, i) else next {
    }
  }

  /** Deleting rows keeps the discipline. */
  lemma {:induction false} KeyedFilter<T(!new)>(rows: seq<T>, key: T -> int, next: int, p: T -> bool)
    requires Keyed(rows, key, next)
    ensures Keyed(Filter(rows, p), key, next)
  {
    if rows != [] {
      var tail := Filter(rows[1..], p);
      forall i, j | 0 <= i < j < |rows[1..]| ensures KeyAt(rows[1..], key, i) < KeyAt(rows[1..], key, j) {
        assert KeyAt(rows, key, i + 1) < KeyAt(rows, key, j + 1);
      }
      forall i | 0 <= i < |rows[1..]| ensures 1 <= KeyAt(rows[1..], key, i) < next {
        assert 1 <= KeyAt(rows, key, i + 1) < next;
      }
      KeyedFilter(rows[1..], key, next, p);
      assert KeyAt(rows, key, 0) == key(rows[0]);
      forall y | y in tail ensures key(rows[0]) < key(y) {
        var j :| 0 <= j < |rows[1..]| && rows[1..][j] == y;
        assert KeyAt(rows, key, 0) < KeyAt(rows, key, j + 1);
      }
      var r := Filter(rows, p);
      assert r == (if p(rows[0]) then [rows[0]] else []) + tail;
      forall i | 0 <= i < |r| ensures 1 <= KeyAt(r, key, i) < next {
        assert r[i] in r;
        var k :| 0 <= k < |rows| && rows[k] == r[i];
        assert 1 <= KeyAt(rows, key, k) < next;
      }
      if p(rows[0]) {
        forall i, j | 0 <= i < j < |r| ensures KeyAt(r, key, i) < KeyAt(r, key, j) {
          if i == 0 {
            assert r[j] == tail[j - 1];
            assert r[j] in tail;
          } else {
            assert r[i] == tail[i - 1] && r[j] == tail[j - 1];
            assert KeyAt(tail, key, i - 1) < KeyAt(tail, key, j - 1);
          }
        }
      } else {
        assert r == tail;
      }
    }
  }

  /** Updating rows without touching their keys keeps the discipline. */
  lemma KeyedSameKeys<T>(rows: seq<T>, rows': seq<T>, key: T -> int, next: int)
    requires Keyed(rows, key, next)
    requires |rows'| == |rows| && forall i :: 0 <= i < |rows| ==> key(rows'[i]) == key(rows[i])
    ensures Keyed(rows', key, next)
  {
    forall i | 0 <= i < |rows| ensures KeyAt(rows', key, i) == KeyAt(rows, key, i) {
    }
  }

  /** Under the discipline at most one row carries a given key. */
  lemma KeyedUnique<T>(rows: seq<T>, key: T -> int, next: int, x: T, y: T)
    requires Keyed(rows, key, next)
    requires x in rows && y in rows && key(x) == key(y)
    ensures x == y
  {
    var i :| 0 <= i < |rows| && rows[i] == x;
    var j :| 0 <= j < |rows| && rows[j] == y;
    assert KeyAt(rows, key, i) == KeyAt(rows, key, j);
  }
}
