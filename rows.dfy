/** Row-sequence helpers with SQL meaning: `WHERE` as an order-keeping
    filter, `ORDER BY` on a text column (BINARY collation: code-point
    lexicographic order) and on an integer column. */
module Rows {
  import opened Common

  /** Code-point lexicographic order, the order of SQLite's BINARY collation
      on UTF-8 text. */
  predicate TextLe(a: string, b: string) {
    |a| == 0 || (|b| > 0 && (a[0] < b[0] || (a[0] == b[0] && TextLe(a[1..], b[1..]))))
  }

  lemma {:induction false} TextLeTotal(a: string, b: string)
    ensures TextLe(a, b) || TextLe(b, a)
  {
    if |a| > 0 && |b| > 0 && a[0] == b[0] {
      TextLeTotal(a[1..], b[1..]);
    }
  }

  lemma {:induction false} TextLeTransitive(a: string, b: string, c: string)
    requires TextLe(a, b) && TextLe(b, c)
    ensures TextLe(a, c)
  {
    if |a| > 0 && a[0] == b[0] && b[0] == c[0] {
      TextLeTransitive(a[1..], b[1..], c[1..]);
    }
  }

  // ---------------------------------------------------------------------
  // WHERE

  /** The rows of `s` that satisfy `p`, in their original order. */
  function Filter<T(!new)>(s: seq<T>, p: T -> bool): (r: seq<T>)
    ensures |r| <= |s|
    ensures forall x :: x in r <==> x in s && p(x)
    ensures forall i :: 0 <= i < |r| ==> p(r[i])
  {
    if s == [] then []
    else if p(s[0]) then [s[0]] + Filter(s[1..], p)
    else Filter(s[1..], p)
  }

  lemma {:induction false} FilterAppend<T(!new)>(a: seq<T>, b: seq<T>, p: T -> bool)
    ensures Filter(a + b, p) == Filter(a, p) + Filter(b, p)
  {
    if a == [] {
      assert a + b == b;
    } else {
      assert (a + b)[1..] == a[1..] + b;
      FilterAppend(a[1..], b, p);
    }
  }

  lemma {:induction false} FilterAllKept<T(!new)>(s: seq<T>, p: T -> bool)
    requires forall i :: 0 <= i < |s| ==> p(s[i])
    ensures Filter(s, p) == s
  {
    if s != [] {
      FilterAllKept(s[1..], p);
    }
  }

  lemma {:induction false} FilterNoneKept<T(!new)>(s: seq<T>, p: T -> bool)
    requires forall i :: 0 <= i < |s| ==> !p(s[i])
    ensures Filter(s, p) == []
  {
    if s != [] {
      FilterNoneKept(s[1..], p);
    }
  }

  /** Filtering twice is filtering once by the conjunction. */
  lemma {:induction false} FilterFilter<T(!new)>(s: seq<T>, p: T -> bool, q: T -> bool, pq: T -> bool)
    requires forall x :: pq(x) == (p(x) && q(x))
    ensures Filter(Filter(s, p), q) == Filter(s, pq)
  {
    if s != [] {
      FilterFilter(s[1..], p, q, pq);
    }
  }

  /** Keys strictly increase along the sequence (rows stored in rowid order). */
  predicate Increasing<T>(s: seq<T>, key: T -> int) {
    forall i, j :: 0 <= i < j < |s| ==> key(s[i]) < key(s[j])
  }

  lemma {:induction false} FilterIncreasing<T(!new)>(s: seq<T>, p: T -> bool, key: T -> int)
    requires Increasing(s, key)
    ensures Increasing(Filter(s, p), key)
  {
    if s != [] {
      FilterIncreasing(s[1..], p, key);
      var rest := Filter(s[1..], p);
      assert forall j :: 0 <= j < |rest| ==> key(s[0]) < key(rest[j]) by {
        forall j | 0 <= j < |rest| ensures key(s[0]) < key(rest[j]) {
          assert rest[j] in s[1..];
        }
      }
    }
  }

  // ---------------------------------------------------------------------
  // ORDER BY a text column

  predicate SortedByText<T>(s: seq<T>, key: T -> string) {
    forall i, j :: 0 <= i < j < |s| ==> TextLe(key(s[i]), key(s[j]))
  }

  function InsertByText<T>(x: T, s: seq<T>, key: T -> string): (r: seq<T>)
    requires SortedByText(s, key)
    ensures multiset(r) == multiset(s) + multiset{x}
    ensures SortedByText(r, key)
  {
    if s == [] then [x]
    else if TextLe(key(x), key(s[0])) then
      assert forall j :: 0 <= j < |s| ==> TextLe(key(x), key(s[j])) by {
        forall j | 0 <= j < |s| ensures TextLe(key(x), key(s[j])) {
          if j > 0 { TextLeTransitive(key(x), key(s[0]), key(s[j])); }
        }
      }
      TextConsSorted(x, s, key);
      [x] + s
    else
      var rest := InsertByText(x, s[1..], key);
      assert s == [s[0]] + s[1..];
      TextLeTotal(key(x), key(s[0]));
      TextBoundCarries(rest, s[1..], x, key, key(s[0]));
      TextConsSorted(s[0], rest, key);
      [s[0]] + rest
  }

  /** A row whose key is below every key of a sorted sequence can go first. */
  lemma TextConsSorted<T>(h: T, s: seq<T>, key: T -> string)
    requires SortedByText(s, key)
    requires forall j :: 0 <= j < |s| ==> TextLe(key(h), key(s[j]))
    ensures SortedByText([h] + s, key)
  {
    var r := [h] + s;
    forall i, j | 0 <= i < j < |r| ensures TextLe(key(r[i]), key(r[j])) {
      assert r[j] == s[j - 1];
      if i > 0 { assert r[i] == s[i - 1]; }
    }
  }

  /** The text counterpart of `IntBoundCarries`. */
  lemma TextBoundCarries<T>(rest: seq<T>, pool: seq<T>, x: T, key: T -> string, b: string)
    requires multiset(rest) == multiset(pool) + multiset{x}
    requires TextLe(b, key(x))
    requires forall k :: 0 <= k < |pool| ==> TextLe(b, key(pool[k]))
    ensures forall j :: 0 <= j < |rest| ==> TextLe(b, key(rest[j]))
  {
    forall j | 0 <= j < |rest| ensures TextLe(b, key(rest[j])) {
      assert rest[j] in multiset(rest);
      if rest[j] != x {
        assert rest[j] in multiset(pool);
        var k :| 0 <= k < |pool| && pool[k] == rest[j];
      }
    }
  }

  /** `ORDER BY` a text column: a sorted permutation of the rows. Which of
      two rows with equal keys comes first is not promised. */
  function SortByText<T>(s: seq<T>, key: T -> string): (r: seq<T>)
    ensures multiset(r) == multiset(s)
    ensures SortedByText(r, key)
  {
    if s == [] then []
    else
      assert s == [s[0]] + s[1..];
      InsertByText(s[0], SortByText(s[1..], key), key)
  }

  // ---------------------------------------------------------------------
  // ORDER BY an integer column

  predicate SortedByInt<T>(s: seq<T>, key: T -> int) {
    forall i, j :: 0 <= i < j < |s| ==> key(s[i]) <= key(s[j])
  }

  function InsertByInt<T>(x: T, s: seq<T>, key: T -> int): (r: seq<T>)
    requires SortedByInt(s, key)
    ensures multiset(r) == multiset(s) + multiset{x}
    ensures SortedByInt(r, key)
  {
    if s == [] then [x]
    else if key(x) <= key(s[0]) then [x] + s
    else
      var rest := InsertByInt(x, s[1..], key);
      assert s == [s[0]] + s[1..];
      IntBoundCarries(rest, s[1..], x, key, key(s[0]));
      IntConsSorted(s[0], rest, key);
      [s[0]] + rest
  }

  /** A row whose key is below every key of a sorted sequence can go first. */
  lemma IntConsSorted<T>(h: T, s: seq<T>, key: T -> int)
    requires SortedByInt(s, key)
    requires forall j :: 0 <= j < |s| ==> key(h) <= key(s[j])
    ensures SortedByInt([h] + s, key)
  {
    var r := [h] + s;
    forall i, j | 0 <= i < j < |r| ensures key(r[i]) <= key(r[j]) {
      assert r[j] == s[j - 1];
      if i > 0 { assert r[i] == s[i - 1]; }
    }
  }

  /** A lower bound on the keys of a sequence and of `x` bounds every key of
      a permutation of the two. */
  lemma IntBoundCarries<T>(rest: seq<T>, pool: seq<T>, x: T, key: T -> int, b: int)
    requires multiset(rest) == multiset(pool) + multiset{x}
    requires b <= key(x)
    requires forall k :: 0 <= k < |pool| ==> b <= key(pool[k])
    ensures forall j :: 0 <= j < |rest| ==> b <= key(rest[j])
  {
    forall j | 0 <= j < |rest| ensures b <= key(rest[j]) {
      assert rest[j] in multiset(rest);
      if rest[j] != x {
        assert rest[j] in multiset(pool);
        var k :| 0 <= k < |pool| && pool[k] == rest[j];
      }
    }
  }

  /** `ORDER BY` an integer column: a sorted permutation of the rows. */
  function SortByInt<T>(s: seq<T>, key: T -> int): (r: seq<T>)
    ensures multiset(r) == multiset(s)
    ensures SortedByInt(r, key)
  {
    if s == [] then []
    else
      assert s == [s[0]] + s[1..];
      InsertByInt(s[0], SortByInt(s[1..], key), key)
  }

  /** A permutation has the same members. */
  lemma SameMembers<T(!new)>(a: seq<T>, b: seq<T>)
    requires multiset(a) == multiset(b)
    ensures forall x :: x in a <==> x in b
  {
    forall x ensures x in a <==> x in b {
      assert x in a <==> x in multiset(a);
      assert x in b <==> x in multiset(b);
    }
  }

  /** Rows already in key order come back in the same order. */
  lemma {:induction false} SortByIntSorted<T(!new)>(s: seq<T>, key: T -> int)
    requires SortedByInt(s, key)
    ensures SortByInt(s, key) == s
  {
    if s != [] {
      SortByIntSorted(s[1..], key);
      assert s == [s[0]] + s[1..];
    }
  }

  // ---------------------------------------------------------------------
  // SELECT ... LIMIT 1 (getFirstSync) and COUNT(*)

  /** The first row that satisfies `p`, if any. */
  function FindFirst<T(!new)>(s: seq<T>, p: T -> bool): (r: Option<T>)
    ensures r.None? <==> forall i :: 0 <= i < |s| ==> !p(s[i])
    ensures r.Some? ==> r.value in s && p(r.value)
  {
    if s == [] then None
    else if p(s[0]) then Some(s[0])
    else FindFirst(s[1..], p)
  }

  /** `WHERE key = k` on a column whose values are distinct (the rowid): the
      row with that key, if any. */
  function FindByKey<T>(s: seq<T>, key: T -> int, k: int): (r: Option<T>)
    ensures r.None? <==> forall i :: 0 <= i < |s| ==> key(s[i]) != k
    ensures r.Some? ==> r.value in s && key(r.value) == k
  {
    if s == [] then None
    else if key(s[0]) == k then Some(s[0])
    else FindByKey(s[1..], key, k)
  }

  /** With distinct keys, the lookup finds exactly the row holding the key. */
  lemma {:induction false} FindByKeyExact<T>(s: seq<T>, key: T -> int, x: T)
    requires Increasing(s, key) && x in s
    ensures FindByKey(s, key, key(x)) == Some(x)
  {
    if s[0] != x {
      assert s[0] == s[0] && x in s[1..];
      var j :| 0 <= j < |s| && s[j] == x;
      assert key(s[0]) < key(s[j]);
      FindByKeyExact(s[1..], key, x);
    }
  }

  /** `SELECT COUNT(*) ... WHERE p`. */
  function Count<T>(s: seq<T>, p: T -> bool): (n: nat)
    ensures n <= |s|
    ensures n == 0 <==> forall i :: 0 <= i < |s| ==> !p(s[i])
  {
    if s == [] then 0
    else (if p(s[0]) then 1 else 0) + Count(s[1..], p)
  }

  /** The count is the number of rows the same WHERE selects. */
  lemma {:induction false} CountIsFilterLength<T(!new)>(s: seq<T>, p: T -> bool)
    ensures Count(s, p) == |Filter(s, p)|
  {
    if s != [] {
      CountIsFilterLength(s[1..], p);
    }
  }

  /** With distinct keys, every row holding the key is what the lookup finds. */
  lemma FindByKeyAll<T>(s: seq<T>, key: T -> int, k: int)
    requires Increasing(s, key)
    ensures forall x :: x in s && key(x) == k ==> FindByKey(s, key, k) == Some(x)
  {
    forall x | x in s && key(x) == k ensures FindByKey(s, key, k) == Some(x) {
      FindByKeyExact(s, key, x);
    }
  }

  /** The first row that satisfies `p` is what FindFirst returns. */
  lemma {:induction false} FindFirstAt<T(!new)>(s: seq<T>, p: T -> bool, k: nat)
    requires k < |s| && p(s[k])
    requires forall j :: 0 <= j < k ==> !p(s[j])
    ensures FindFirst(s, p) == Some(s[k])
  {
    if k > 0 {
      FindFirstAt(s[1..], p, k - 1);
    }
  }

  /** Rows with keys in 1..next-1, in strictly increasing key order: a table
      whose rowids AUTOINCREMENT allocates, with `next` the next rowid. */
  predicate Keyed<T>(s: seq<T>, key: T -> int, next: int) {
    1 <= next && Increasing(s, key) && forall i :: 0 <= i < |s| ==> 1 <= key(s[i]) < next
  }

  lemma KeyedAppend<T>(s: seq<T>, key: T -> int, next: int, x: T)
    requires Keyed(s, key, next) && key(x) == next
    ensures Keyed(s + [x], key, next + 1)
  {
  }

  lemma KeyedFilter<T(!new)>(s: seq<T>, key: T -> int, next: int, p: T -> bool)
    requires Keyed(s, key, next)
    ensures Keyed(Filter(s, p), key, next)
  {
    FilterIncreasing(s, p, key);
    var r := Filter(s, p);
    forall i | 0 <= i < |r| ensures 1 <= key(r[i]) < next {
      assert r[i] in s;
    }
  }

  lemma IncreasingSorted<T>(s: seq<T>, key: T -> int)
    requires Increasing(s, key)
    ensures SortedByInt(s, key)
  {
  }
}
