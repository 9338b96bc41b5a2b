/**
 * The orderings the formatters rely on: Python's stable `list.sort` /
 * `sorted` with a descending numeric key, and `sorted(set(xs))` on strings.
 * Both are library calls in the source, so they are specified here as pure
 * functions with their defining properties proved.
 */
module Ordering {
  import opened Text

  /**
   * A two-part sort key. The source sorts ascending on `(-major, -minor)`,
   * that is, larger `major` first and, among equal `major`, larger `minor` first.
   */
  datatype Rank = Rank(major: int, minor: int)

  /** `a` sorts strictly before `b`. */
  predicate Above(a: Rank, b: Rank) {
    a.major > b.major || (a.major == b.major && a.minor > b.minor)
  }

  /** No element outranks an element that comes before it. */
  ghost predicate SortedDesc<T>(s: seq<T>, rank: T -> Rank) {
    forall i, j :: 0 <= i < j < |s| ==> !Above(rank(s[j]), rank(s[i]))
  }

  /** The elements whose rank is exactly `k`, in their order in `s`. */
  function WithRank<T>(s: seq<T>, rank: T -> Rank, k: Rank): (r: seq<T>)
    ensures |r| <= |s|
  {
    if s == [] then [] else (if rank(s[0]) == k then [s[0]] else []) + WithRank(s[1..], rank, k)
  }

  /** Insert `x` in front of the first element it does not rank below. */
  function Insert<T>(x: T, s: seq<T>, rank: T -> Rank): (r: seq<T>)
    ensures |r| == |s| + 1
  {
    if s != [] && Above(rank(s[0]), rank(x)) then [s[0]] + Insert(x, s[1..], rank) else [x] + s
  }

  lemma {:induction false} InsertMultiset<T>(x: T, s: seq<T>, rank: T -> Rank)
    ensures multiset(Insert(x, s, rank)) == multiset(s) + multiset{x}
  {
    if s != [] && Above(rank(s[0]), rank(x)) {
      InsertMultiset(x, s[1..], rank);
      assert s == [s[0]] + s[1..];
    }
  }

  lemma {:induction false} InsertSorted<T>(x: T, s: seq<T>, rank: T -> Rank)
    requires SortedDesc(s, rank)
    ensures SortedDesc(Insert(x, s, rank), rank)
  {
    var r := Insert(x, s, rank);
    if s != [] && Above(rank(s[0]), rank(x)) {
      InsertSorted(x, s[1..], rank);
      InsertMultiset(x, s[1..], rank);
      var tail := Insert(x, s[1..], rank);
      assert r == [s[0]] + tail;
      forall j | 0 < j < |r|
        ensures !Above(rank(r[j]), rank(s[0]))
      {
        assert r[j] in multiset(tail);
        if r[j] != x {
          assert r[j] in multiset(s[1..]);
          var m :| 0 <= m < |s[1..]| && s[1..][m] == r[j];
          assert s[m + 1] == r[j];
        }
      }
    } else if s != [] {
      assert r == [x] + s;
      forall j | 0 < j < |r|
        ensures !Above(rank(r[j]), rank(x))
      {
        assert r[j] == s[j - 1];
        if j > 1 { assert !Above(rank(s[j - 1]), rank(s[0])); }
      }
    }
  }

  /** Inserting `x` adds it in front of every element of equal rank. */
  lemma {:induction false} InsertWithRank<T>(x: T, s: seq<T>, rank: T -> Rank, k: Rank)
    ensures WithRank(Insert(x, s, rank), rank, k) == WithRank([x] + s, rank, k)
  {
    if s != [] && Above(rank(s[0]), rank(x)) {
      InsertWithRank(x, s[1..], rank, k);
      var tail := Insert(x, s[1..], rank);
      assert Insert(x, s, rank) == [s[0]] + tail;
      assert ([s[0]] + tail)[1..] == tail;
      assert ([x] + s)[1..] == s;
      assert ([x] + s[1..])[1..] == s[1..];
      assert s == [s[0]] + s[1..];
    }
  }

  /** Inserting the head of `s` into a tie-preserving sort of its tail preserves the ties of `s`. */
  lemma InsertKeepsTies<T>(s: seq<T>, rest: seq<T>, rank: T -> Rank)
    requires s != [] && forall k :: WithRank(rest, rank, k) == WithRank(s[1..], rank, k)
    ensures forall k :: WithRank(Insert(s[0], rest, rank), rank, k) == WithRank(s, rank, k)
  {
    forall k ensures WithRank(Insert(s[0], rest, rank), rank, k) == WithRank(s, rank, k) {
      InsertWithRank(s[0], rest, rank, k);
      assert ([s[0]] + rest)[1..] == rest;
    }
  }

  /**
   * Python's stable sort on a descending key: the result is a permutation of
   * the input, ordered by rank, and elements of equal rank keep their order.
   */
  function SortDesc<T>(s: seq<T>, rank: T -> Rank): (r: seq<T>)
    ensures |r| == |s|
    ensures multiset(r) == multiset(s)
    ensures SortedDesc(r, rank)
    ensures forall k :: WithRank(r, rank, k) == WithRank(s, rank, k)
  {
    if s == [] then []
    else
      var rest := SortDesc(s[1..], rank);
      InsertMultiset(s[0], rest, rank);
      InsertSorted(s[0], rest, rank);
      assert s == [s[0]] + s[1..];
      InsertKeepsTies(s, rest, rank);
      Insert(s[0], rest, rank)
  }

  /** Sorting neither adds nor loses an element. */
  lemma SortDescMembers<T>(s: seq<T>, rank: T -> Rank)
    ensures forall x :: x in SortDesc(s, rank) <==> x in s
  {
    var r := SortDesc(s, rank);
    forall x ensures x in r <==> x in s {
      assert x in r <==> x in multiset(r);
      assert x in s <==> x in multiset(s);
    }
  }

  /** The equal-rank elements kept in a prefix are the first ones of that rank. */
  lemma {:induction false} WithRankPrefix<T>(s: seq<T>, m: nat, rank: T -> Rank, k: Rank)
    requires m <= |s|
    ensures WithRank(s[..m], rank, k) <= WithRank(s, rank, k)
  {
    if m > 0 {
      WithRankPrefix(s[1..], m - 1, rank, k);
      assert s[..m][1..] == s[1..][..m - 1];
    }
  }

  /** A prefix of a sorted sequence is sorted. */
  lemma SortedPrefix<T>(s: seq<T>, m: nat, rank: T -> Rank)
    requires SortedDesc(s, rank) && m <= |s|
    ensures SortedDesc(s[..m], rank)
  {
    forall i, j | 0 <= i < j < m
      ensures !Above(rank(s[..m][j]), rank(s[..m][i]))
    {
      assert s[..m][i] == s[i] && s[..m][j] == s[j];
    }
  }

  /** Cutting a sorted sequence keeps elements that rank at least as high as every one it drops. */
  lemma PrefixDominates<T>(s: seq<T>, m: nat, rank: T -> Rank)
    requires SortedDesc(s, rank) && m <= |s|
    ensures forall x, y :: x in s[..m] && y in multiset(s) - multiset(s[..m]) ==> !Above(rank(y), rank(x))
  {
    assert s == s[..m] + s[m..];
    assert multiset(s) - multiset(s[..m]) == multiset(s[m..]);
    forall x, y | x in s[..m] && y in s[m..]
      ensures !Above(rank(y), rank(x))
    {
      var i :| 0 <= i < |s[..m]| && s[..m][i] == x;
      var j :| 0 <= j < |s[m..]| && s[m..][j] == y;
      assert s[i] == x && s[m + j] == y;
    }
  }

  /** Strictly ascending in Python's string order, hence free of duplicates. */
  ghost predicate StrictlyAscending(s: seq<string>) {
    forall i, j :: 0 <= i < j < |s| ==> LexLess(s[i], s[j])
  }

  function InsertUnique(x: string, s: seq<string>): (r: seq<string>)
    ensures forall y :: y in r <==> y == x || y in s
    ensures |r| <= |s| + 1
  {
    if s == [] then [x]
    else if x == s[0] then s
    else if LexLess(s[0], x) then [s[0]] + InsertUnique(x, s[1..])
    else [x] + s
  }

  lemma {:induction false} InsertUniqueAscending(x: string, s: seq<string>)
    requires StrictlyAscending(s)
    ensures StrictlyAscending(InsertUnique(x, s))
  {
    var r := InsertUnique(x, s);
    if s != [] && x != s[0] && LexLess(s[0], x) {
      InsertUniqueAscending(x, s[1..]);
      var tail := InsertUnique(x, s[1..]);
      assert r == [s[0]] + tail;
      forall j | 0 < j < |r|
        ensures LexLess(r[0], r[j])
      {
        assert r[j] in tail;
        if r[j] != x {
          var m :| 0 <= m < |s[1..]| && s[1..][m] == r[j];
          assert s[m + 1] == r[j];
        }
      }
    } else if s != [] && x != s[0] {
      LexLessTotal(x, s[0]);
      assert r == [x] + s;
      forall j | 0 < j < |r|
        ensures LexLess(x, r[j])
      {
        assert r[j] == s[j - 1];
        if j > 1 { LexLessTransitive(x, s[0], s[j - 1]); }
      }
    }
  }

  /** `sorted(set(xs))`: the distinct elements of `xs` in ascending order. */
  function SortedSet(xs: seq<string>): (r: seq<string>)
    ensures StrictlyAscending(r)
    ensures forall y :: y in r <==> y in xs
    ensures |r| <= |xs|
  {
    if xs == [] then []
    else
      var rest := SortedSet(xs[1..]);
      InsertUniqueAscending(xs[0], rest);
      assert xs == [xs[0]] + xs[1..];
      InsertUnique(xs[0], rest)
  }

  lemma HeadIn(a: seq<string>)
    requires a != []
    ensures a[0] in a
  {
  }

  /** A strictly ascending sequence is determined by its elements. */
  lemma {:induction false} AscendingUnique(a: seq<string>, b: seq<string>)
    requires StrictlyAscending(a) && StrictlyAscending(b)
    requires forall y :: y in a <==> y in b
    ensures a == b
  {
    if a != [] && b != [] {
      assert a == [a[0]] + a[1..] && b == [b[0]] + b[1..];
      if a[0] != b[0] {
        assert b[0] in a && a[0] in b;
        var i :| 0 <= i < |a| && a[i] == b[0];
        var j :| 0 <= j < |b| && b[j] == a[0];
        LexLessAsymmetric(a[0], b[0]);
      }
      forall y
        ensures y in a[1..] <==> y in b[1..]
      {
        if y in a[1..] {
          var i :| 0 <= i < |a[1..]| && a[1..][i] == y;
          assert LexLess(a[0], a[i + 1]);
          LexLessIrreflexive(y);
          assert y in b && y != b[0];
        }
        if y in b[1..] {
          var j :| 0 <= j < |b[1..]| && b[1..][j] == y;
          assert LexLess(b[0], b[j + 1]);
          LexLessIrreflexive(y);
          assert y in a && y != a[0];
        }
      }
      AscendingUnique(a[1..], b[1..]);
    } else if a != [] {
      HeadIn(a);
    } else if b != [] {
      HeadIn(b);
    }
  }
}
