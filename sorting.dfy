/**
 * The sorts the front end relies on: `Array.prototype.sort` with a numeric
 * comparator (stable since ES2019) and `sort()` with no comparator on strings.
 * Both are modelled by one insertion sort over an order `le`; the result is
 * proved sorted and a permutation of the input.
 */
module Sorting {
  import opened Common

  predicate Sorted<T>(s: seq<T>, le: (T, T) -> bool)
  {
    forall i, j :: 0 <= i < j < |s| ==> le(s[i], s[j])
  }

  ghost predicate TotalPreorder<T(!new)>(le: (T, T) -> bool)
  {
    (forall a, b :: le(a, b) || le(b, a)) &&
    (forall a, b, c :: le(a, b) && le(b, c) ==> le(a, c))
  }

  /** Puts `x` after every leading element not above it. */
  function Insert<T>(x: T, s: seq<T>, le: (T, T) -> bool): seq<T>
  {
    if s == [] then [x]
    else if !le(s[0], x) then [x] + s
    else [s[0]] + Insert(x, s[1..], le)
  }

  /** Insertion sort: each element in turn inserted into the sorted prefix. */
  function Sort<T>(s: seq<T>, le: (T, T) -> bool): seq<T>
  {
    if s == [] then [] else Insert(s[|s| - 1], Sort(s[..|s| - 1], le), le)
  }

  lemma {:induction false} InsertPerm<T>(x: T, s: seq<T>, le: (T, T) -> bool)
    ensures multiset(Insert(x, s, le)) == multiset(s) + multiset{x}
  {
    if s != [] && le(s[0], x) {
      InsertPerm(x, s[1..], le);
      assert s == [s[0]] + s[1..];
    }
  }

  lemma {:induction false} InsertLowerBound<T>(x: T, s: seq<T>, le: (T, T) -> bool, b: T)
    requires forall i :: 0 <= i < |s| ==> le(b, s[i])
    requires le(b, x)
    ensures forall i :: 0 <= i < |Insert(x, s, le)| ==> le(b, Insert(x, s, le)[i])
  {
    if s != [] && le(s[0], x) {
      InsertLowerBound(x, s[1..], le, b);
      var r := Insert(x, s, le);
      assert r[1..] == Insert(x, s[1..], le);
      forall i | 0 < i < |r| ensures le(b, r[i]) {
        assert r[i] == r[1..][i - 1];
      }
    }
  }

  lemma {:induction false} InsertSorted<T(!new)>(x: T, s: seq<T>, le: (T, T) -> bool)
    requires TotalPreorder(le) && Sorted(s, le)
    ensures Sorted(Insert(x, s, le), le)
  {
    if s == [] {
    } else if !le(s[0], x) {
      var r := [x] + s;
      assert le(x, s[0]);
      forall i, j | 0 <= i < j < |r| ensures le(r[i], r[j]) {
        if i == 0 {
          if j > 1 {
            assert le(s[0], s[j - 1]);
          }
        } else {
          assert r[i] == s[i - 1] && r[j] == s[j - 1];
        }
      }
    } else {
      var rest := Insert(x, s[1..], le);
      InsertSorted(x, s[1..], le);
      InsertLowerBound(x, s[1..], le, s[0]);
      var r := [s[0]] + rest;
      forall i, j | 0 <= i < j < |r| ensures le(r[i], r[j]) {
        if i == 0 {
          assert r[j] == rest[j - 1];
        } else {
          assert r[i] == rest[i - 1] && r[j] == rest[j - 1];
        }
      }
    }
  }

  /** The insertion sort orders its input by `le` and keeps every element, as many times as it occurs. */
  lemma {:induction false} SortCorrect<T(!new)>(s: seq<T>, le: (T, T) -> bool)
    requires TotalPreorder(le)
    ensures Sorted(Sort(s, le), le)
    ensures multiset(Sort(s, le)) == multiset(s)
    ensures |Sort(s, le)| == |s|
  {
    if s != [] {
      var init := s[..|s| - 1];
      SortCorrect(init, le);
      InsertSorted(s[|s| - 1], Sort(init, le), le);
      InsertPerm(s[|s| - 1], Sort(init, le), le);
      assert s == init + [s[|s| - 1]];
    }
    assert |multiset(Sort(s, le))| == |Sort(s, le)|;
  }

  // ---------------------------------------------------------------- numeric keys

  /**
   * The sort key of an element: a finite number, or `Unranked` for a key the
   * comparator cannot order (a NaN date), placed after every finite key.
   */
  datatype Rank = Finite(n: int) | Unranked

  predicate RankLe(a: Rank, b: Rank)
  {
    b.Unranked? || (a.Finite? && a.n <= b.n)
  }

  /** `sort((a, b) => key(a) - key(b))`, ascending. */
  function SortByRank<T(!new)>(s: seq<T>, rank: T -> Rank): (r: seq<T>)
    ensures forall i, j :: 0 <= i < j < |r| ==> RankLe(rank(r[i]), rank(r[j]))
    ensures multiset(r) == multiset(s)
    ensures |r| == |s|
  {
    var le := (a, b) => RankLe(rank(a), rank(b));
    SortCorrect(s, le);
    Sort(s, le)
  }

  /**
   * The first `k` elements of the sorted list are the `k` smallest: none of
   * the elements left out ranks below any element kept.
   */
  lemma SmallestFirst<T(!new)>(s: seq<T>, rank: T -> Rank, k: nat)
    ensures multiset(Take(SortByRank(s, rank), k)) <= multiset(s)
    ensures forall x, y :: x in Take(SortByRank(s, rank), k) && y in multiset(s) - multiset(Take(SortByRank(s, rank), k)) ==>
      RankLe(rank(x), rank(y))
  {
    var sorted := SortByRank(s, rank);
    var r := Take(sorted, k);
    if |sorted| >= k {
      assert sorted == r + sorted[k..];
      assert multiset(s) == multiset(r) + multiset(sorted[k..]);
      assert multiset(s) - multiset(r) == multiset(sorted[k..]);
      forall x, y | x in r && y in multiset(sorted[k..]) ensures RankLe(rank(x), rank(y)) {
        var i :| 0 <= i < |r| && r[i] == x;
        assert y in sorted[k..];
        var j :| 0 <= j < |sorted[k..]| && sorted[k..][j] == y;
        assert sorted[k + j] == y;
      }
    } else {
      assert multiset(s) - multiset(r) == multiset{};
    }
  }

  // ---------------------------------------------------------------- strings

  lemma StrLeTotalPreorder()
    ensures TotalPreorder((a: string, b: string) => StrLe(a, b))
  {
    forall a: string, b: string ensures StrLe(a, b) || StrLe(b, a) {
      StrLtTotal(a, b);
    }
    forall a: string, b: string, c: string | StrLe(a, b) && StrLe(b, c) ensures StrLe(a, c) {
      if a != b && b != c {
        StrLtTransitive(a, b, c);
      }
    }
  }

  /** JavaScript `sort()` with no comparator on strings: ascending by code units. */
  function SortStrings(s: seq<string>): (r: seq<string>)
    ensures forall i, j :: 0 <= i < j < |r| ==> StrLe(r[i], r[j])
    ensures multiset(r) == multiset(s)
    ensures |r| == |s|
  {
    var le := (a: string, b: string) => StrLe(a, b);
    StrLeTotalPreorder();
    SortCorrect(s, le);
    Sort(s, le)
  }

  lemma {:induction false} DistinctMultiplicity(s: seq<string>, x: string)
    requires forall i, j :: 0 <= i < j < |s| ==> s[i] != s[j]
    ensures multiset(s)[x] <= 1
  {
    if s != [] {
      DistinctMultiplicity(s[1..], x);
      assert s == [s[0]] + s[1..];
      if s[0] == x {
        assert x !in s[1..];
      }
    }
  }

  lemma RepeatedMultiplicity(r: seq<string>, i: nat, j: nat)
    requires i < j < |r| && r[i] == r[j]
    ensures multiset(r)[r[i]] >= 2
  {
    assert r == r[..i] + [r[i]] + (r[i + 1..j] + [r[j]] + r[j + 1..]);
  }

  /** Sorting keys without repetition gives a strictly ascending list of the same keys. */
  lemma SortStringsStrict(s: seq<string>)
    requires forall i, j :: 0 <= i < j < |s| ==> s[i] != s[j]
    ensures forall i, j :: 0 <= i < j < |SortStrings(s)| ==> StrLt(SortStrings(s)[i], SortStrings(s)[j])
    ensures forall x :: x in SortStrings(s) <==> x in s
  {
    var r := SortStrings(s);
    forall x ensures x in r <==> x in s {
      assert x in r <==> x in multiset(r);
      assert x in s <==> x in multiset(s);
    }
    forall i, j | 0 <= i < j < |r| ensures StrLt(r[i], r[j]) {
      if r[i] == r[j] {
        RepeatedMultiplicity(r, i, j);
        DistinctMultiplicity(s, r[i]);
        assert false;
      }
    }
  }
}
