/** Sequence operations behind the table transformations: nullable cells,
    order-preserving de-duplication and filtering, a sort by a caller-given
    order, sorting a set of strings, and per-key counts. */
module Collections {
  import opened Text

  /** A nullable cell (pandas `None`/`NaN` is `None`). */
  datatype Option<+T> = None | Some(value: T)

  predicate NoDuplicates<T(==)>(s: seq<T>) {
    forall i, j :: 0 <= i < j < |s| ==> s[i] != s[j]
  }

  /** First occurrences in input order, as pandas `unique()` and
      `drop_duplicates()` keep them. */
  function Dedup<T(==,!new)>(s: seq<T>): (r: seq<T>)
    ensures NoDuplicates(r)
    ensures forall x :: x in r <==> x in s
  {
    if s == [] then []
    else
      var r := Dedup(s[..|s| - 1]);
      assert forall x :: x in s <==> x in s[..|s| - 1] || x == s[|s| - 1];
      if s[|s| - 1] in r then r else r + [s[|s| - 1]]
  }

  /** A sequence without duplicates has as many elements as its set. */
  lemma {:induction false} DistinctCardinality<T>(s: seq<T>)
    requires NoDuplicates(s)
    ensures |set x | x in s| == |s|
  {
    if s != [] {
      var init := s[..|s| - 1];
      DistinctCardinality(init);
      assert (set x | x in s) == (set x | x in init) + {s[|s| - 1]};
      assert s[|s| - 1] !in init;
    }
  }

  /** Sequences with the same multiset have the same members. */
  lemma SameMembers<T>(a: seq<T>, b: seq<T>)
    requires multiset(a) == multiset(b)
    ensures forall x :: x in a <==> x in b
  {
    forall x ensures x in a <==> x in b {
      assert x in a <==> x in multiset(a);
      assert x in b <==> x in multiset(b);
    }
  }

  /** Reordering keeps a sequence free of repeats. */
  lemma DistinctAfterPermutation<T>(a: seq<T>, b: seq<T>)
    requires NoDuplicates(a) && multiset(a) == multiset(b)
    ensures NoDuplicates(b)
  {
    forall i, j | 0 <= i < j < |b| ensures b[i] != b[j] {
      if b[i] == b[j] {
        assert multiset(b)[b[i]] >= 2 by {
          assert b == b[..i] + [b[i]] + b[i + 1..j] + [b[j]] + b[j + 1..];
        }
        DistinctCount(a, b[i]);
      }
    }
  }

  /** In a sequence free of repeats each element occurs at most once. */
  lemma {:induction false} DistinctCount<T>(s: seq<T>, x: T)
    requires NoDuplicates(s)
    ensures multiset(s)[x] <= 1
  {
    if s != [] {
      var init := s[..|s| - 1];
      assert s == init + [s[|s| - 1]];
      DistinctCount(init, x);
      if x == s[|s| - 1] {
        assert x !in init;
      }
    }
  }

  /** Boolean-mask selection: the rows that satisfy `p`, in input order. */
  function Filter<T(!new)>(s: seq<T>, p: T -> bool): (r: seq<T>)
    ensures |r| <= |s|
    ensures forall x :: x in r <==> x in s && p(x)
  {
    if s == [] then []
    else
      var init := s[..|s| - 1];
      assert forall x :: x in s <==> x in init || x == s[|s| - 1];
      Filter(init, p) + (if p(s[|s| - 1]) then [s[|s| - 1]] else [])
  }

  function Negate<T(!new)>(p: T -> bool): T -> bool {
    x => !p(x)
  }

  /** Selecting by a mask and by its negation splits the rows: every row lands
      in exactly one of the two parts. */
  lemma FilterPartition<T(!new)>(s: seq<T>, p: T -> bool)
    ensures multiset(Filter(s, p)) + multiset(Filter(s, Negate(p))) == multiset(s)
    ensures |Filter(s, p)| + |Filter(s, Negate(p))| == |s|
  {
    FilterSplit(s, p);
    assert |multiset(Filter(s, p)) + multiset(Filter(s, Negate(p)))| == |multiset(s)|;
  }

  lemma {:induction false} FilterSplit<T(!new)>(s: seq<T>, p: T -> bool)
    ensures multiset(Filter(s, p)) + multiset(Filter(s, Negate(p))) == multiset(s)
  {
    if s != [] {
      var init, last := s[..|s| - 1], s[|s| - 1];
      var kept, dropped := Filter(init, p), Filter(init, Negate(p));
      assert multiset(kept) + multiset(dropped) == multiset(init) by {
        FilterSplit(init, p);
      }
      assert Filter(s, p) == kept + (if p(last) then [last] else []) by {
        FilterSnoc(s, p);
      }
      assert Filter(s, Negate(p)) == dropped + (if p(last) then [] else [last]) by {
        FilterSnoc(s, Negate(p));
        assert Negate(p)(last) == !p(last);
      }
      assert s == init + [last];
      PartitionStep(kept, dropped, init, last, p(last), Filter(s, p), Filter(s, Negate(p)));
    }
  }

  /** Adding one row to one side of a split of `init` splits `init + [last]`. */
  lemma PartitionStep<T>(a: seq<T>, b: seq<T>, init: seq<T>, last: T, left: bool, a': seq<T>, b': seq<T>)
    requires multiset(a) + multiset(b) == multiset(init)
    requires a' == a + (if left then [last] else []) && b' == b + (if left then [] else [last])
    ensures multiset(a') + multiset(b') == multiset(init + [last])
  {
  }

  /** Selection over a sequence extended by one row. */
  lemma FilterSnoc<T(!new)>(s: seq<T>, p: T -> bool)
    requires s != []
    ensures Filter(s, p) == Filter(s[..|s| - 1], p) + (if p(s[|s| - 1]) then [s[|s| - 1]] else [])
  {
  }

  ghost predicate TotalPreorder<T(!new)>(le: (T, T) -> bool) {
    && (forall a, b :: le(a, b) || le(b, a))
    && (forall a, b, c :: le(a, b) && le(b, c) ==> le(a, c))
  }

  ghost predicate SortedBy<T>(s: seq<T>, le: (T, T) -> bool) {
    forall i, j :: 0 <= i < j < |s| ==> le(s[i], s[j])
  }

  function Insert<T>(x: T, s: seq<T>, le: (T, T) -> bool): (r: seq<T>)
    ensures |r| == |s| + 1
    ensures multiset(r) == multiset(s) + multiset{x}
  {
    if s == [] || le(x, s[0]) then [x] + s
    else
      assert s == [s[0]] + s[1..];
      [s[0]] + Insert(x, s[1..], le)
  }

  /** A sort under the order `le`; an element goes before the first element it
      is not greater than, so equal elements keep their input order. */
  function SortBy<T>(s: seq<T>, le: (T, T) -> bool): (r: seq<T>)
    ensures |r| == |s|
    ensures multiset(r) == multiset(s)
  {
    if s == [] then []
    else
      assert s == [s[0]] + s[1..];
      Insert(s[0], SortBy(s[1..], le), le)
  }

  lemma {:induction false} InsertSorted<T(!new)>(x: T, s: seq<T>, le: (T, T) -> bool)
    requires TotalPreorder(le) && SortedBy(s, le)
    ensures SortedBy(Insert(x, s, le), le)
  {
    if s != [] && !le(x, s[0]) {
      InsertSorted(x, s[1..], le);
      var r := Insert(x, s, le);
      var rest := Insert(x, s[1..], le);
      assert r == [s[0]] + rest;
      assert le(s[0], x);
      forall k | 0 <= k < |rest| ensures le(s[0], rest[k]) {
        assert rest[k] in multiset(rest);
        assert rest[k] == x || rest[k] in multiset(s[1..]);
        if rest[k] != x {
          var m :| 0 <= m < |s[1..]| && s[1..][m] == rest[k];
          assert s[1..][m] == s[m + 1];
        }
      }
    }
  }

  /** The result of `SortBy` is ordered under any total preorder. */
  lemma {:induction false} SortBySorted<T(!new)>(s: seq<T>, le: (T, T) -> bool)
    requires TotalPreorder(le)
    ensures SortedBy(SortBy(s, le), le)
  {
    if s != [] {
      SortBySorted(s[1..], le);
      InsertSorted(s[0], SortBy(s[1..], le), le);
    }
  }

  predicate StrictlyAscending(s: seq<string>) {
    forall i, j :: 0 <= i < j < |s| ==> LexLe(s[i], s[j]) && s[i] != s[j]
  }

  /** Keeping some elements of an ascending sequence keeps it ascending. */
  lemma {:induction false} FilterAscending(s: seq<string>, p: string -> bool)
    requires StrictlyAscending(s)
    ensures StrictlyAscending(Filter(s, p))
  {
    if s != [] {
      var n := |s| - 1;
      var init := s[..n];
      assert StrictlyAscending(init) by {
        assert forall i :: 0 <= i < n ==> init[i] == s[i];
      }
      FilterAscending(init, p);
      var f := Filter(init, p);
      if p(s[n]) {
        var r := f + [s[n]];
        forall i, j | 0 <= i < j < |r| ensures LexLe(r[i], r[j]) && r[i] != r[j] {
          if j == |f| {
            assert r[i] in init;
            var m :| 0 <= m < n && init[m] == r[i];
          }
        }
      }
    }
  }

  lemma {:induction false} LeastElementExists(s: set<string>)
    requires s != {}
    ensures exists x :: IsLeast(x, s)
  {
    var z :| z in s;
    LexLeTotal(z, z);
    if s == {z} {
      assert IsLeast(z, s);
    } else {
      LeastElementExists(s - {z});
      var x :| IsLeast(x, s - {z});
      LexLeTotal(x, z);
      if LexLe(x, z) {
        assert IsLeast(x, s);
      } else {
        forall y | y in s ensures LexLe(z, y) {
          if y != z {
            LexLeTransitive(z, x, y);
          }
        }
        assert IsLeast(z, s);
      }
    }
  }

  /** Python's `sorted(s)` for a set of strings: ascending, no repeats. */
  function SortedElements(s: set<string>): (r: seq<string>)
    ensures |r| == |s|
    ensures forall x :: x in r <==> x in s
    ensures StrictlyAscending(r)
    decreases |s|
  {
    if s == {} then []
    else
      LeastElementExists(s);
      LeastUnique(s);
      var x :| IsLeast(x, s);
      var rest := SortedElements(s - {x});
      LeastFirst(x, rest, s);
      [x] + rest
  }

  predicate IsLeast(x: string, s: set<string>) {
    x in s && forall y :: y in s ==> LexLe(x, y)
  }

  lemma LeastUnique(s: set<string>)
    ensures forall x, x' :: IsLeast(x, s) && IsLeast(x', s) ==> x == x'
  {
    forall x, x' | IsLeast(x, s) && IsLeast(x', s) ensures x == x' {
      LexLeAntisymmetric(x, x');
    }
  }

  /** The least element followed by the sorted rest is sorted. */
  lemma LeastFirst(x: string, rest: seq<string>, s: set<string>)
    requires x in s && forall y :: y in s ==> LexLe(x, y)
    requires StrictlyAscending(rest) && forall y :: y in rest <==> y in s - {x}
    ensures StrictlyAscending([x] + rest)
    ensures forall y :: y in [x] + rest <==> y in s
  {
    var r := [x] + rest;
    forall i, j | 0 <= i < j < |r| ensures LexLe(r[i], r[j]) && r[i] != r[j] {
      if i == 0 {
        assert r[j] == rest[j - 1] && rest[j - 1] in rest;
      } else {
        assert r[i] == rest[i - 1] && r[j] == rest[j - 1];
      }
    }
  }

  lemma AscendingHead(a: seq<string>)
    requires StrictlyAscending(a)
    ensures a != [] ==> a[0] in a && forall y :: y in a ==> LexLe(a[0], y)
  {
    if a != [] {
      forall y | y in a ensures LexLe(a[0], y) {
        var k :| 0 <= k < |a| && a[k] == y;
        if k == 0 {
          LexLeTotal(y, y);
        }
      }
    }
  }

  /** Two ascending sequences without repeats that hold the same strings are
      the same sequence: the sorted form of a set is unique. */
  lemma {:induction false} StrictlyAscendingUnique(a: seq<string>, b: seq<string>)
    requires StrictlyAscending(a) && StrictlyAscending(b)
    requires forall x :: x in a <==> x in b
    ensures a == b
  {
    AscendingHead(a);
    AscendingHead(b);
    if a != [] && b != [] {
      LexLeAntisymmetric(a[0], b[0]);
      forall x ensures x in a[1..] <==> x in b[1..] {
        if x in a[1..] {
          var m :| 0 <= m < |a[1..]| && a[1..][m] == x;
          assert a[m + 1] == x && x != a[0];
          assert x in a && x in b;
          var k :| 0 <= k < |b| && b[k] == x;
          assert k != 0 && b[1..][k - 1] == x;
        }
        if x in b[1..] {
          var m :| 0 <= m < |b[1..]| && b[1..][m] == x;
          assert b[m + 1] == x && x != b[0];
          assert x in b && x in a;
          var k :| 0 <= k < |a| && a[k] == x;
          assert k != 0 && a[1..][k - 1] == x;
        }
      }
      StrictlyAscendingUnique(a[1..], b[1..]);
      assert a == [a[0]] + a[1..] && b == [b[0]] + b[1..];
    }
  }

  /** How many elements of `s` have key `k` (the size of the `groupby` group). */
  function CountKey<T(!new), K(==)>(s: seq<T>, key: T -> K, k: K): (n: nat)
    ensures n <= |s|
    ensures n == 0 <==> forall x :: x in s ==> key(x) != k
  {
    if s == [] then 0
    else
      var init := s[..|s| - 1];
      assert forall x :: x in s <==> x in init || x == s[|s| - 1];
      CountKey(init, key, k) + (if key(s[|s| - 1]) == k then 1 else 0)
  }

  /** Narrowing the rows first can only lower a group's count. */
  lemma {:induction false} CountKeyFilter<T(!new), K>(s: seq<T>, p: T -> bool, key: T -> K, k: K)
    ensures CountKey(Filter(s, p), key, k) <= CountKey(s, key, k)
  {
    if s != [] {
      var init := s[..|s| - 1];
      CountKeyFilter(init, p, key, k);
      var f := Filter(init, p);
      if p(s[|s| - 1]) {
        assert Filter(s, p)[..|Filter(s, p)| - 1] == f;
      } else {
        assert Filter(s, p) == f;
      }
    }
  }

  /** The group sizes over a list of keys, added up. */
  function SumCounts<T(!new), K(==)>(s: seq<T>, key: T -> K, ks: seq<K>): nat {
    if ks == [] then 0 else CountKey(s, key, ks[0]) + SumCounts(s, key, ks[1..])
  }

  lemma {:induction false} SumCountsEmpty<T(!new), K>(key: T -> K, ks: seq<K>)
    ensures SumCounts([], key, ks) == 0
  {
    if ks != [] {
      SumCountsEmpty(key, ks[1..]);
    }
  }

  /** Adding one row to `s` adds one to the total when its key is listed once. */
  lemma {:induction false} SumCountsSnoc<T(!new), K>(s: seq<T>, x: T, key: T -> K, ks: seq<K>)
    requires NoDuplicates(ks)
    ensures SumCounts(s + [x], key, ks) == SumCounts(s, key, ks) + (if key(x) in ks then 1 else 0)
  {
    if ks != [] {
      assert (s + [x])[..|s + [x]| - 1] == s;
      assert NoDuplicates(ks[1..]);
      SumCountsSnoc(s, x, key, ks[1..]);
      assert key(x) in ks <==> key(x) == ks[0] || key(x) in ks[1..];
      if key(x) == ks[0] {
        assert ks[0] !in ks[1..];
      }
    }
  }

  /** Group sizes over distinct keys that cover every row add up to the
      number of rows. */
  lemma {:induction false} SumCountsCovers<T(!new), K>(s: seq<T>, key: T -> K, ks: seq<K>)
    requires NoDuplicates(ks)
    requires forall x :: x in s ==> key(x) in ks
    ensures SumCounts(s, key, ks) == |s|
  {
    if s == [] {
      SumCountsEmpty(key, ks);
    } else {
      var init := s[..|s| - 1];
      assert s == init + [s[|s| - 1]];
      SumCountsCovers(init, key, ks);
      SumCountsSnoc(init, s[|s| - 1], key, ks);
    }
  }

  function SumBy<T>(s: seq<T>, f: T -> int): int {
    if s == [] then 0 else f(s[0]) + SumBy(s[1..], f)
  }

  lemma {:induction false} SumByConcat<T>(a: seq<T>, b: seq<T>, f: T -> int)
    ensures SumBy(a + b, f) == SumBy(a, f) + SumBy(b, f)
  {
    if a == [] {
      assert a + b == b;
    } else {
      assert (a + b)[1..] == a[1..] + b;
      SumByConcat(a[1..], b, f);
    }
  }

  /** Reordering does not change a sum. */
  lemma {:induction false} SumByPermutation<T>(a: seq<T>, b: seq<T>, f: T -> int)
    requires multiset(a) == multiset(b)
    ensures SumBy(a, f) == SumBy(b, f)
    decreases |a|
  {
    if a != [] {
      assert a[0] in multiset(b);
      var i :| 0 <= i < |b| && b[i] == a[0];
      var rest := b[..i] + b[i + 1..];
      assert multiset(a[1..]) == multiset(rest) by {
        MultisetRemoveAt(b, i);
        assert a == [a[0]] + a[1..];
      }
      SumByPermutation(a[1..], rest, f);
      SumByRemoveAt(b, i, f);
    }
  }

  lemma MultisetRemoveAt<T>(b: seq<T>, i: nat)
    requires i < |b|
    ensures multiset(b[..i] + b[i + 1..]) == multiset(b) - multiset{b[i]}
  {
    assert b == b[..i] + [b[i]] + b[i + 1..];
  }

  lemma SumByRemoveAt<T>(b: seq<T>, i: nat, f: T -> int)
    requires i < |b|
    ensures SumBy(b, f) == f(b[i]) + SumBy(b[..i] + b[i + 1..], f)
  {
    var pre, x, post := b[..i], b[i], b[i + 1..];
    assert b == pre + [x] + post;
    assert SumBy(b, f) == SumBy(pre + [x], f) + SumBy(post, f) by {
      SumByConcat(pre + [x], post, f);
    }
    assert SumBy(pre + [x], f) == SumBy(pre, f) + f(x) by {
      SumByConcat(pre, [x], f);
      assert SumBy([x], f) == f(x);
    }
    SumByConcat(pre, post, f);
  }
}
