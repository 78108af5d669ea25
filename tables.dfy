/**
 * Generic operations on the rows of one Azure table, held as a sequence in the
 * order the table service lists them: ascending (partitionKey, rowKey). They are
 * the filtered scan of `listEntities` (every match, or the first), the insertion
 * of a new row at its key's place, in-place rewriting of the matching rows, and
 * uniqueness of the key.
 */
module Tables {
  import opened Wrappers

  /** A row's address: (partitionKey, rowKey). */
  type Key = (string, string)

  // ─── Key order ───

  /** Ordinal string order: the first differing character decides, and a proper prefix comes first. */
  predicate StrLess(a: string, b: string)
    decreases |a|
  {
    if |a| == 0 then |b| > 0
    else if |b| == 0 then false
    else a[0] < b[0] || (a[0] == b[0] && StrLess(a[1..], b[1..]))
  }

  lemma {:induction false} StrLessIrreflexive(a: string)
    ensures !StrLess(a, a)
    decreases |a|
  {
    if |a| > 0 {
      StrLessIrreflexive(a[1..]);
    }
  }

  lemma {:induction false} StrLessTransitive(a: string, b: string, c: string)
    requires StrLess(a, b) && StrLess(b, c)
    ensures StrLess(a, c)
    decreases |a|
  {
    if |a| > 0 && a[0] == b[0] && b[0] == c[0] {
      StrLessTransitive(a[1..], b[1..], c[1..]);
    }
  }

  lemma {:induction false} StrLessTotal(a: string, b: string)
    ensures a == b || StrLess(a, b) || StrLess(b, a)
    decreases |a|
  {
    if |a| > 0 && |b| > 0 && a[0] == b[0] {
      StrLessTotal(a[1..], b[1..]);
      if a[1..] == b[1..] {
        assert a == [a[0]] + a[1..] && b == [b[0]] + b[1..];
      }
    }
  }

  /** The table service's order on keys: by partitionKey, then by rowKey. */
  predicate KeyLess(a: Key, b: Key) {
    StrLess(a.0, b.0) || (a.0 == b.0 && StrLess(a.1, b.1))
  }

  lemma KeyLessIrreflexive(a: Key)
    ensures !KeyLess(a, a)
  {
    StrLessIrreflexive(a.0);
    StrLessIrreflexive(a.1);
  }

  lemma KeyLessTransitive(a: Key, b: Key, c: Key)
    requires KeyLess(a, b) && KeyLess(b, c)
    ensures KeyLess(a, c)
  {
    if StrLess(a.0, b.0) && StrLess(b.0, c.0) {
      StrLessTransitive(a.0, b.0, c.0);
    } else if a.0 == b.0 && b.0 == c.0 {
      StrLessTransitive(a.1, b.1, c.1);
    }
  }

  /** Two different keys are ordered one way or the other, never both. */
  lemma KeyLessTotal(a: Key, b: Key)
    ensures a == b || KeyLess(a, b) || KeyLess(b, a)
    ensures !(KeyLess(a, b) && KeyLess(b, a))
  {
    StrLessTotal(a.0, b.0);
    StrLessTotal(a.1, b.1);
    if KeyLess(a, b) && KeyLess(b, a) {
      KeyLessTransitive(a, b, a);
      KeyLessIrreflexive(a);
    }
  }

  /** The rows are listed in strictly ascending key order. */
  predicate SortedByKey<T(!new)>(s: seq<T>, key: T -> Key) {
    forall i, j :: 0 <= i < j < |s| ==> KeyLess(key(s[i]), key(s[j]))
  }

  /** `s` with `x` placed before the first row whose key is greater. */
  function Insert<T(!new)>(s: seq<T>, x: T, key: T -> Key): (r: seq<T>)
    ensures |r| == |s| + 1
  {
    if |s| == 0 then [x]
    else if KeyLess(key(x), key(s[0])) then [x] + s
    else [s[0]] + Insert(s[1..], x, key)
  }

  /** An insertion adds exactly the one row and loses none. */
  lemma {:induction false} InsertContents<T(!new)>(s: seq<T>, x: T, key: T -> Key)
    ensures multiset(Insert(s, x, key)) == multiset(s) + multiset{x}
    ensures forall y :: y in Insert(s, x, key) <==> y in s || y == x
  {
    if |s| > 0 {
      assert s == [s[0]] + s[1..];
      if !KeyLess(key(x), key(s[0])) {
        InsertContents(s[1..], x, key);
      }
    }
  }

  /** The filter's step on a leading row. */
  lemma FilterCons<T(!new)>(h: T, t: seq<T>, p: T -> bool)
    ensures Filter([h] + t, p) == (if p(h) then [h] else []) + Filter(t, p)
  {
    assert ([h] + t)[0] == h && ([h] + t)[1..] == t;
  }

  /** The rows that satisfy `p`, in the order of `s`. */
  function Filter<T(!new)>(s: seq<T>, p: T -> bool): (r: seq<T>)
    ensures |r| <= |s|
    ensures forall x :: x in r <==> x in s && p(x)
  {
    if |s| == 0 then [] else (if p(s[0]) then [s[0]] else []) + Filter(s[1..], p)
  }

  lemma {:induction false} FilterAppend<T(!new)>(s: seq<T>, x: T, p: T -> bool)
    ensures Filter(s + [x], p) == Filter(s, p) + (if p(x) then [x] else [])
  {
    if |s| == 0 {
      assert s + [x] == [x];
      assert [x][1..] == [];
    } else {
      assert (s + [x])[0] == s[0] && (s + [x])[1..] == s[1..] + [x];
      FilterAppend(s[1..], x, p);
    }
  }

  lemma {:induction false} FilterAll<T(!new)>(s: seq<T>, p: T -> bool)
    requires forall x :: x in s ==> p(x)
    ensures Filter(s, p) == s
  {
    if |s| > 0 {
      FilterAll(s[1..], p);
      assert [s[0]] + s[1..] == s;
    }
  }

  lemma {:induction false} FilterNone<T(!new)>(s: seq<T>, p: T -> bool)
    requires forall x :: x in s ==> !p(x)
    ensures Filter(s, p) == []
  {
    if |s| > 0 {
      FilterNone(s[1..], p);
    }
  }

  /** The first row that satisfies `p`: what `for await (…) return entity` yields. */
  function Find<T(!new)>(s: seq<T>, p: T -> bool): (r: Option<T>)
    ensures r.Some? ==> r.value in s && p(r.value)
    ensures r.None? <==> forall x :: x in s ==> !p(x)
  {
    if |s| == 0 then None else if p(s[0]) then Some(s[0]) else Find(s[1..], p)
  }

  /** A scan that finds nothing in `s` finds the appended row when it matches. */
  lemma {:induction false} FindAppendMissing<T(!new)>(s: seq<T>, x: T, p: T -> bool)
    requires forall y :: y in s ==> !p(y)
    requires p(x)
    ensures Find(s + [x], p) == Some(x)
  {
    if |s| == 0 {
      assert s + [x] == [x];
    } else {
      assert (s + [x])[1..] == s[1..] + [x];
      assert (s + [x])[0] == s[0];
      FindAppendMissing(s[1..], x, p);
    }
  }

  /** The first match is the head of the full filtered scan. */
  lemma {:induction false} FindIsFirstOfFilter<T(!new)>(s: seq<T>, p: T -> bool)
    ensures Find(s, p) == if Filter(s, p) == [] then None else Some(Filter(s, p)[0])
  {
    if |s| > 0 && !p(s[0]) {
      FindIsFirstOfFilter(s[1..], p);
    }
  }

  lemma SortedTail<T(!new)>(s: seq<T>, key: T -> Key)
    requires SortedByKey(s, key) && |s| > 0
    ensures SortedByKey(s[1..], key)
  {
    forall i, j | 0 <= i < j < |s[1..]| ensures KeyLess(key(s[1..][i]), key(s[1..][j])) {
      assert s[1..][i] == s[i + 1] && s[1..][j] == s[j + 1];
    }
  }

  /** A sorted table holds each key at most once. */
  lemma SortedUnique<T(!new)>(s: seq<T>, key: T -> Key)
    requires SortedByKey(s, key)
    ensures UniqueKeys(s, key)
  {
    forall i, j | 0 <= i < j < |s| ensures key(s[i]) != key(s[j]) {
      KeyLessIrreflexive(key(s[i]));
    }
  }

  /** The head of a sorted table has the least key: it comes before every other row. */
  lemma SortedHeadLeast<T(!new)>(s: seq<T>, key: T -> Key, y: T)
    requires SortedByKey(s, key) && |s| > 0 && y in s[1..]
    ensures KeyLess(key(s[0]), key(y))
  {
    var m :| 0 <= m < |s[1..]| && s[1..][m] == y;
    assert s[m + 1] == y;
  }

  /** A row whose key is below every key of the table goes first. */
  lemma InsertBeforeAll<T(!new)>(s: seq<T>, x: T, key: T -> Key)
    requires forall y :: y in s ==> KeyLess(key(x), key(y))
    ensures Insert(s, x, key) == [x] + s
  {
    if |s| > 0 {
      assert s[0] in s;
    }
  }

  /** A row below every row of a sorted table can be put in front of it. */
  lemma SortedCons<T(!new)>(h: T, t: seq<T>, key: T -> Key)
    requires SortedByKey(t, key) && forall y :: y in t ==> KeyLess(key(h), key(y))
    ensures SortedByKey([h] + t, key)
  {
    var r := [h] + t;
    forall i, j | 0 <= i < j < |r| ensures KeyLess(key(r[i]), key(r[j])) {
      if i == 0 {
        assert r[j] == t[j - 1] && t[j - 1] in t;
      } else {
        assert r[i] == t[i - 1] && r[j] == t[j - 1];
      }
    }
  }

  /** A new key inserted into a sorted table keeps it sorted. */
  lemma {:induction false} InsertSorted<T(!new)>(s: seq<T>, x: T, key: T -> Key)
    requires SortedByKey(s, key) && !HasKey(s, key, key(x))
    ensures SortedByKey(Insert(s, x, key), key)
    ensures UniqueKeys(Insert(s, x, key), key)
  {
    if |s| > 0 {
      var h, rest := s[0], s[1..];
      assert s == [h] + rest;
      SortedTail(s, key);
      forall y | y in rest ensures KeyLess(key(h), key(y)) {
        SortedHeadLeast(s, key, y);
      }
      if KeyLess(key(x), key(h)) {
        forall y | y in s ensures KeyLess(key(x), key(y)) {
          if y != h {
            KeyLessTransitive(key(x), key(h), key(y));
          }
        }
        SortedCons(x, s, key);
      } else {
        KeyLessTotal(key(x), key(h));
        assert key(h) != key(x) by { assert key(s[0]) == key(h); }
        NoKeyInTail(s, key, key(x));
        InsertSorted(rest, x, key);
        InsertContents(rest, x, key);
        SortedCons(h, Insert(rest, x, key), key);
        InsertAfterHead(h, rest, x, key);
      }
    }
    SortedUnique(Insert(s, x, key), key);
  }

  /** The keys of a sorted table's tail all differ from a key its whole does not hold. */
  lemma NoKeyInTail<T(!new)>(s: seq<T>, key: T -> Key, k: Key)
    requires |s| > 0 && !HasKey(s, key, k)
    ensures !HasKey(s[1..], key, k)
  {
    forall m | 0 <= m < |s[1..]| ensures key(s[1..][m]) != k {
      assert s[1..][m] == s[m + 1];
    }
  }

  /** A matching row whose key is below the head of a sorted table is also first among the matches. */
  lemma FilterInsertFront<T(!new)>(s: seq<T>, x: T, key: T -> Key, p: T -> bool)
    requires SortedByKey(s, key) && |s| > 0 && KeyLess(key(x), key(s[0])) && p(x)
    ensures Insert(Filter(s, p), x, key) == [x] + Filter(s, p)
  {
    forall y | y in Filter(s, p) ensures KeyLess(key(x), key(y)) {
      if y != s[0] {
        assert y in s[1..] by { assert y in s; assert s == [s[0]] + s[1..]; }
        SortedHeadLeast(s, key, y);
        KeyLessTransitive(key(x), key(s[0]), key(y));
      }
    }
    InsertBeforeAll(Filter(s, p), x, key);
  }

  /** Filtering a table after an insertion is inserting into the filtered table, when the row matches. */
  lemma {:induction false} FilterInsert<T(!new)>(s: seq<T>, x: T, key: T -> Key, p: T -> bool)
    requires SortedByKey(s, key) && !HasKey(s, key, key(x))
    ensures Filter(Insert(s, x, key), p) == if p(x) then Insert(Filter(s, p), x, key) else Filter(s, p)
  {
    if |s| == 0 {
      assert [x][1..] == [];
    } else if KeyLess(key(x), key(s[0])) {
      assert ([x] + s)[0] == x && ([x] + s)[1..] == s;
      if p(x) {
        FilterInsertFront(s, x, key, p);
      }
    } else {
      SortedTail(s, key);
      NoKeyInTail(s, key, key(x));
      FilterInsert(s[1..], x, key, p);
      FilterInsertLater(s, x, key, p);
    }
  }

  /** A row whose key is not below the head's is inserted after the head. */
  lemma InsertAfterHead<T(!new)>(h: T, t: seq<T>, x: T, key: T -> Key)
    requires !KeyLess(key(x), key(h))
    ensures Insert([h] + t, x, key) == [h] + Insert(t, x, key)
  {
    assert ([h] + t)[0] == h && ([h] + t)[1..] == t;
  }

  /** The step of `FilterInsert` where the row goes after the head. */
  lemma FilterInsertLater<T(!new)>(s: seq<T>, x: T, key: T -> Key, p: T -> bool)
    requires |s| > 0 && !KeyLess(key(x), key(s[0]))
    requires Filter(Insert(s[1..], x, key), p) == if p(x) then Insert(Filter(s[1..], p), x, key) else Filter(s[1..], p)
    ensures Filter(Insert(s, x, key), p) == if p(x) then Insert(Filter(s, p), x, key) else Filter(s, p)
  {
    assert s == [s[0]] + s[1..];
    FilterInsertAfterHead(s[0], s[1..], x, key, p);
  }

  lemma FilterInsertAfterHead<T(!new)>(h: T, rest: seq<T>, x: T, key: T -> Key, p: T -> bool)
    requires !KeyLess(key(x), key(h))
    requires Filter(Insert(rest, x, key), p) == if p(x) then Insert(Filter(rest, p), x, key) else Filter(rest, p)
    ensures Filter(Insert([h] + rest, x, key), p) == if p(x) then Insert(Filter([h] + rest, p), x, key) else Filter([h] + rest, p)
  {
    var t, b := Insert(rest, x, key), Filter(rest, p);
    InsertAfterHead(h, rest, x, key);
    FilterCons(h, t, p);
    FilterCons(h, rest, p);
    if p(x) {
      if p(h) {
        InsertAfterHead(h, b, x, key);
      } else {
        assert [] + b == b;
      }
    }
  }

  /** A sorted table stays sorted under any filter. */
  lemma {:induction false} SortedFilter<T(!new)>(s: seq<T>, p: T -> bool, key: T -> Key)
    requires SortedByKey(s, key)
    ensures SortedByKey(Filter(s, p), key)
  {
    if |s| > 0 {
      SortedTail(s, key);
      SortedFilter(s[1..], p, key);
      var tail := Filter(s[1..], p);
      if p(s[0]) {
        var r := [s[0]] + tail;
        forall i, j | 0 <= i < j < |r| ensures KeyLess(key(r[i]), key(r[j])) {
          if i == 0 {
            assert r[j] in s[1..];
            SortedHeadLeast(s, key, r[j]);
          } else {
            assert r[i] == tail[i - 1] && r[j] == tail[j - 1];
          }
        }
      }
    }
  }

  /** In a sorted table the first match has the least key of all matches. */
  lemma FindIsKeyLeast<T(!new)>(s: seq<T>, p: T -> bool, key: T -> Key, y: T)
    requires SortedByKey(s, key) && Find(s, p).Some?
    requires y in s && p(y) && y != Find(s, p).value
    ensures KeyLess(key(Find(s, p).value), key(y))
  {
    FindIsFirstOfFilter(s, p);
    SortedFilter(s, p, key);
    var f := Filter(s, p);
    var j :| 0 <= j < |f| && f[j] == y;
  }

  /** A scan that matches nothing in `s` finds an inserted row that matches. */
  lemma FindInsertMissing<T(!new)>(s: seq<T>, x: T, key: T -> Key, p: T -> bool)
    requires forall y :: y in s ==> !p(y)
    requires p(x)
    ensures Find(Insert(s, x, key), p) == Some(x)
  {
    InsertContents(s, x, key);
  }

  /** After an insertion the table holds exactly the old keys and the new one. */
  lemma InsertHasKey<T(!new)>(s: seq<T>, x: T, key: T -> Key, k: Key)
    ensures HasKey(Insert(s, x, key), key, k) <==> HasKey(s, key, k) || key(x) == k
  {
    var r := Insert(s, x, key);
    InsertContents(s, x, key);
    if HasKey(r, key, k) {
      var i :| 0 <= i < |r| && key(r[i]) == k;
      assert r[i] in r;
      if r[i] != x {
        var m :| 0 <= m < |s| && s[m] == r[i];
      }
    }
    if HasKey(s, key, k) {
      var i :| 0 <= i < |s| && key(s[i]) == k;
      assert s[i] in r;
      var m :| 0 <= m < |r| && r[m] == s[i];
    }
    if key(x) == k {
      assert x in r;
      var m :| 0 <= m < |r| && r[m] == x;
    }
  }

  /** Rows satisfying `p` rewritten by `f`, the rest untouched, order kept. */
  function MapWhere<T(!new)>(s: seq<T>, p: T -> bool, f: T -> T): (r: seq<T>)
    ensures |r| == |s|
    ensures forall i :: 0 <= i < |s| ==> r[i] == if p(s[i]) then f(s[i]) else s[i]
  {
    seq(|s|, i requires 0 <= i < |s| => if p(s[i]) then f(s[i]) else s[i])
  }

  lemma MapWhereNone<T(!new)>(s: seq<T>, p: T -> bool, f: T -> T)
    requires forall x :: x in s ==> !p(x)
    ensures MapWhere(s, p, f) == s
  {
    var r := MapWhere(s, p, f);
    forall i | 0 <= i < |s| ensures r[i] == s[i] {
      assert s[i] in s;
    }
  }

  /** Rewriting by `p` and then by `q` is one rewrite by `p` or `q`, when `f` keeps both tests and is idempotent. */
  lemma MapWhereTwice<T(!new)>(s: seq<T>, p: T -> bool, q: T -> bool, pq: T -> bool, f: T -> T)
    requires forall x :: p(f(x)) == p(x) && q(f(x)) == q(x) && f(f(x)) == f(x)
    requires forall x :: pq(x) <==> p(x) || q(x)
    ensures MapWhere(MapWhere(s, p, f), q, f) == MapWhere(s, pq, f)
  {
  }

  /** Rewrites by two tests that agree on every row are the same. */
  lemma MapWhereCongruent<T(!new)>(s: seq<T>, p: T -> bool, q: T -> bool, f: T -> T)
    requires forall x :: x in s ==> p(x) == q(x)
    ensures MapWhere(s, p, f) == MapWhere(s, q, f)
  {
    forall i | 0 <= i < |s| ensures MapWhere(s, p, f)[i] == MapWhere(s, q, f)[i] {
      assert s[i] in s;
    }
  }

  /** No two rows share a key. */
  predicate UniqueKeys<T(!new)>(s: seq<T>, key: T -> Key) {
    forall i, j :: 0 <= i < j < |s| ==> key(s[i]) != key(s[j])
  }

  predicate HasKey<T(!new)>(s: seq<T>, key: T -> Key, k: Key) {
    exists i :: 0 <= i < |s| && key(s[i]) == k
  }

  lemma UniqueAppend<T(!new)>(s: seq<T>, x: T, key: T -> Key)
    requires UniqueKeys(s, key) && !HasKey(s, key, key(x))
    ensures UniqueKeys(s + [x], key)
  {
    forall i, j | 0 <= i < j < |s + [x]|
      ensures key((s + [x])[i]) != key((s + [x])[j])
    {
      if j == |s| {
        assert (s + [x])[i] == s[i];
      }
    }
  }

  lemma {:induction false} UniqueFilter<T(!new)>(s: seq<T>, p: T -> bool, key: T -> Key)
    requires UniqueKeys(s, key)
    ensures UniqueKeys(Filter(s, p), key)
  {
    if |s| > 0 {
      UniqueFilter(s[1..], p, key);
      var tail := Filter(s[1..], p);
      if p(s[0]) {
        var r := [s[0]] + tail;
        forall i, j | 0 <= i < j < |r| ensures key(r[i]) != key(r[j]) {
          if i == 0 {
            assert r[j] in s[1..];
            var m :| 0 <= m < |s[1..]| && s[1..][m] == r[j];
            assert s[m + 1] == r[j];
          } else {
            assert r[i] == tail[i - 1] && r[j] == tail[j - 1];
          }
        }
      }
    }
  }

  lemma UniqueMapWhere<T(!new)>(s: seq<T>, p: T -> bool, f: T -> T, key: T -> Key)
    requires UniqueKeys(s, key)
    requires forall x :: key(f(x)) == key(x)
    ensures UniqueKeys(MapWhere(s, p, f), key)
  {
    var r := MapWhere(s, p, f);
    forall i, j | 0 <= i < j < |r| ensures key(r[i]) != key(r[j]) {
      assert key(r[i]) == key(s[i]) && key(r[j]) == key(s[j]);
    }
  }

  lemma SortedMapWhere<T(!new)>(s: seq<T>, p: T -> bool, f: T -> T, key: T -> Key)
    requires SortedByKey(s, key)
    requires forall x :: key(f(x)) == key(x)
    ensures SortedByKey(MapWhere(s, p, f), key)
  {
    var r := MapWhere(s, p, f);
    forall i, j | 0 <= i < j < |r| ensures KeyLess(key(r[i]), key(r[j])) {
      assert key(r[i]) == key(s[i]) && key(r[j]) == key(s[j]);
    }
  }

  /**
   * Under unique keys, rewriting the row the scan for `p` finds (and only that
   * row, by its key) makes the scan find the rewritten row, provided it still
   * satisfies `p`.
   */
  lemma {:induction false} FindAfterRewrite<T(!new)>(s: seq<T>, p: T -> bool, q: T -> bool, f: T -> T, key: T -> Key, x: T)
    requires UniqueKeys(s, key)
    requires Find(s, p) == Some(x)
    requires forall y :: q(y) <==> key(y) == key(x)
    requires forall y :: key(f(y)) == key(y)
    requires p(f(x))
    ensures Find(MapWhere(s, q, f), p) == Some(f(x))
  {
    var r := MapWhere(s, q, f);
    assert r[1..] == MapWhere(s[1..], q, f);
    if p(s[0]) {
      assert s[0] == x;
    } else {
      assert x in s[1..];
      var m :| 0 <= m < |s[1..]| && s[1..][m] == x;
      assert s[m + 1] == x;
      assert key(s[0]) != key(x);
      assert UniqueKeys(s[1..], key) by {
        forall i, j | 0 <= i < j < |s[1..]| ensures key(s[1..][i]) != key(s[1..][j]) {
          assert s[1..][i] == s[i + 1] && s[1..][j] == s[j + 1];
        }
      }
      FindAfterRewrite(s[1..], p, q, f, key, x);
    }
  }

  /** Under unique keys at most one row has key `k`, so the key lookup is that row. */
  lemma FilterUnique<T(!new)>(s: seq<T>, key: T -> Key, k: Key, p: T -> bool, x: T)
    requires UniqueKeys(s, key)
    requires forall y :: p(y) <==> key(y) == k
    requires x in s && key(x) == k
    ensures Filter(s, p) == [x]
  {
    UniqueFilter(s, p, key);
    var r := Filter(s, p);
    assert x in r;
  }

  /** The `listEntities` loop that collects every match into `results`. */
  method ScanAll<T(!new)>(rows: seq<T>, p: T -> bool) returns (results: seq<T>)
    ensures results == Filter(rows, p)
  {
    results := [];
    var i := 0;
    while i < |rows|
      invariant 0 <= i <= |rows|
      invariant results == Filter(rows[..i], p)
    {
      FilterAppend(rows[..i], rows[i], p);
      assert rows[..i + 1] == rows[..i] + [rows[i]];
      if p(rows[i]) {
        results := results + [rows[i]];
      }
      i := i + 1;
    }
    assert rows[..i] == rows;
  }

  /** The `listEntities` loop that returns the first match, or null. */
  method ScanFirst<T(!new)>(rows: seq<T>, p: T -> bool) returns (found: Option<T>)
    ensures found == Find(rows, p)
  {
    var i := 0;
    while i < |rows|
      invariant 0 <= i <= |rows|
      invariant Find(rows[i..], p) == Find(rows, p)
    {
      assert rows[i..][1..] == rows[i + 1..];
      if p(rows[i]) {
        return Some(rows[i]);
      }
      i := i + 1;
    }
    return None;
  }
}
