/**
 * A stable insertion sort that orders elements by a real-valued key, largest
 * first. JavaScript's `Array.prototype.sort` is stable, so with a comparator
 * `(a, b) => key(b) - key(a)` it returns exactly this order.
 */
module Sorting {
  import opened Seqs

  /** Keys never increase from left to right. */
  predicate SortedDesc<T>(s: seq<T>, key: T -> real) {
    forall i, j :: 0 <= i < j < |s| ==> key(s[i]) >= key(s[j])
  }

  /** The elements of `s` whose key is `v`, in their order in `s`. */
  function Ties<T>(s: seq<T>, key: T -> real, v: real): seq<T> {
    if |s| == 0 then []
    else (if key(s[0]) == v then [s[0]] else []) + Ties(s[1..], key, v)
  }

  /** Puts `x` in front of the first element whose key is not larger than its own. */
  function Insert<T>(x: T, s: seq<T>, key: T -> real): (r: seq<T>)
    requires SortedDesc(s, key)
    ensures |r| == |s| + 1
    ensures multiset(r) == multiset(s) + multiset{x}
    ensures forall j :: 0 <= j < |r| ==> r[j] == x || r[j] in s
    ensures SortedDesc(r, key)
  {
    if |s| == 0 then [x]
    else if key(x) >= key(s[0]) then [x] + s
    else
      var rest := Insert(x, s[1..], key);
      InsertStep(x, s, s[1..], rest, key);
      [s[0]] + rest
  }

  /** The step of `Insert` that keeps the head in front, kept apart to keep each proof small. */
  lemma InsertStep<T>(x: T, s: seq<T>, tail: seq<T>, rest: seq<T>, key: T -> real)
    requires |s| > 0 && tail == s[1..] && SortedDesc(s, key) && key(x) < key(s[0])
    requires multiset(rest) == multiset(tail) + multiset{x}
    requires forall j :: 0 <= j < |rest| ==> rest[j] == x || rest[j] in tail
    requires SortedDesc(rest, key)
    ensures var r := [s[0]] + rest;
            && multiset(r) == multiset(s) + multiset{x}
            && (forall j :: 0 <= j < |r| ==> r[j] == x || r[j] in s)
            && SortedDesc(r, key)
  {
    var r := [s[0]] + rest;
    assert s == [s[0]] + tail;
    forall j | 0 <= j < |rest| ensures key(s[0]) >= key(rest[j]) {
      if rest[j] != x {
        var k :| 0 <= k < |tail| && tail[k] == rest[j];
        assert s[k + 1] == rest[j];
      }
    }
    forall i, j | 0 <= i < j < |r| ensures key(r[i]) >= key(r[j]) {
      assert r[j] == rest[j - 1];
      if i > 0 {
        assert r[i] == rest[i - 1];
      }
    }
    forall j | 0 <= j < |r| ensures r[j] == x || r[j] in s {
      if j > 0 {
        assert r[j] == rest[j - 1];
      }
    }
  }

  /** Insertion sort: the result is a sorted permutation of the input. */
  function InsertionSort<T>(s: seq<T>, key: T -> real): (r: seq<T>)
    ensures |r| == |s|
    ensures multiset(r) == multiset(s)
    ensures SortedDesc(r, key)
  {
    if |s| == 0 then []
    else
      assert s == [s[0]] + s[1..];
      Insert(s[0], InsertionSort(s[1..], key), key)
  }

  lemma {:induction false} TiesOfConcat<T>(a: seq<T>, b: seq<T>, key: T -> real, v: real)
    ensures Ties(a + b, key, v) == Ties(a, key, v) + Ties(b, key, v)
  {
    if |a| > 0 {
      assert (a + b)[1..] == a[1..] + b;
      TiesOfConcat(a[1..], b, key, v);
    } else {
      assert a + b == b;
    }
  }

  lemma {:induction false} TiesOfInsert<T>(x: T, s: seq<T>, key: T -> real, v: real)
    requires SortedDesc(s, key)
    ensures Ties(Insert(x, s, key), key, v) == Ties([x], key, v) + Ties(s, key, v)
  {
    if |s| == 0 {
      assert [x] + s == [x];
    } else if key(x) >= key(s[0]) {
      TiesOfConcat([x], s, key, v);
    } else {
      var rest := Insert(x, s[1..], key);
      TiesOfConcat([s[0]], rest, key, v);
      TiesOfInsert(x, s[1..], key, v);
      assert s == [s[0]] + s[1..];
      TiesOfConcat([s[0]], s[1..], key, v);
      assert Ties([s[0]], key, v) == [] || Ties([x], key, v) == [];
    }
  }

  /**
   * Stability: among elements with equal keys the sort keeps the input order,
   * so ties in profit are broken by position in the sellers list.
   */
  lemma {:induction false} InsertionSortIsStable<T>(s: seq<T>, key: T -> real, v: real)
    ensures Ties(InsertionSort(s, key), key, v) == Ties(s, key, v)
  {
    if |s| > 0 {
      InsertionSortIsStable(s[1..], key, v);
      TiesOfInsert(s[0], InsertionSort(s[1..], key), key, v);
      assert s == [s[0]] + s[1..];
      TiesOfConcat([s[0]], s[1..], key, v);
    }
  }

  /**
   * Cutting the sorted sequence after `n` elements keeps, for every key, the
   * earliest input elements with that key.
   */
  lemma SortedPrefixKeepsFirstTies<T>(s: seq<T>, key: T -> real, n: nat, v: real)
    requires n <= |s|
    ensures n <= |InsertionSort(s, key)|
    ensures Ties(InsertionSort(s, key)[..n], key, v) <= Ties(s, key, v)
  {
    var sorted := InsertionSort(s, key);
    assert sorted == sorted[..n] + sorted[n..];
    TiesOfConcat(sorted[..n], sorted[n..], key, v);
    InsertionSortIsStable(s, key, v);
  }

  lemma {:induction false} ImageOfInsert<T, U>(x: T, s: seq<T>, key: T -> real, f: T -> U)
    requires SortedDesc(s, key)
    ensures multiset(Image(Insert(x, s, key), f)) == multiset(Image(s, f)) + multiset{f(x)}
  {
    if |s| == 0 {
    } else if key(x) >= key(s[0]) {
      assert Image([x] + s, f) == [f(x)] + Image(s, f);
    } else {
      var rest := Insert(x, s[1..], key);
      assert Image([s[0]] + rest, f) == [f(s[0])] + Image(rest, f);
      assert Image(s, f) == [f(s[0])] + Image(s[1..], f);
      ImageOfInsert(x, s[1..], key, f);
    }
  }

  /** Any projection of the sorted elements is a permutation of the same projection of the input. */
  lemma {:induction false} SortPermutesImage<T, U>(s: seq<T>, key: T -> real, f: T -> U)
    ensures multiset(Image(InsertionSort(s, key), f)) == multiset(Image(s, f))
  {
    if |s| > 0 {
      SortPermutesImage(s[1..], key, f);
      ImageOfInsert(s[0], InsertionSort(s[1..], key), key, f);
    }
  }

  lemma {:induction false} SumOfInsert<T>(x: T, s: seq<T>, key: T -> real, f: T -> int)
    requires SortedDesc(s, key)
    ensures SumBy(Insert(x, s, key), f) == f(x) + SumBy(s, f)
  {
    if |s| == 0 {
    } else if key(x) >= key(s[0]) {
      assert ([x] + s)[1..] == s;
    } else {
      var rest := Insert(x, s[1..], key);
      assert ([s[0]] + rest)[1..] == rest;
      SumOfInsert(x, s[1..], key, f);
    }
  }

  /** Sorting does not change any sum over the elements. */
  lemma {:induction false} SortPreservesSum<T>(s: seq<T>, key: T -> real, f: T -> int)
    ensures SumBy(InsertionSort(s, key), f) == SumBy(s, f)
  {
    if |s| > 0 {
      SortPreservesSum(s[1..], key, f);
      SumOfInsert(s[0], InsertionSort(s[1..], key), key, f);
    }
  }

  /** No two elements share a projected key. */
  ghost predicate DistinctBy<T, K>(s: seq<T>, f: T -> K) {
    forall i, j :: 0 <= i < j < |s| ==> f(s[i]) != f(s[j])
  }

  lemma {:induction false} InsertKeepsDistinct<T, K>(x: T, s: seq<T>, key: T -> real, f: T -> K)
    requires SortedDesc(s, key)
    requires DistinctBy(s, f)
    requires forall y :: y in s ==> f(y) != f(x)
    ensures DistinctBy(Insert(x, s, key), f)
  {
    if |s| == 0 {
    } else if key(x) >= key(s[0]) {
      var r := [x] + s;
      forall i, j | 0 <= i < j < |r| ensures f(r[i]) != f(r[j]) {
        if i == 0 {
          assert r[j] == s[j - 1];
        }
      }
    } else {
      var rest := Insert(x, s[1..], key);
      assert forall y :: y in s[1..] ==> y in s;
      InsertKeepsDistinct(x, s[1..], key, f);
      var r := [s[0]] + rest;
      forall i, j | 0 <= i < j < |r| ensures f(r[i]) != f(r[j]) {
        if i == 0 {
          assert r[j] in rest;
          if r[j] != x {
            var k :| 0 <= k < |s[1..]| && s[1..][k] == r[j];
            assert s[k + 1] == r[j];
          }
        }
      }
    }
  }

  /** Sorting keeps projected keys distinct. */
  lemma {:induction false} SortKeepsDistinct<T, K>(s: seq<T>, key: T -> real, f: T -> K)
    requires DistinctBy(s, f)
    ensures DistinctBy(InsertionSort(s, key), f)
  {
    if |s| > 0 {
      var t := InsertionSort(s[1..], key);
      SortKeepsDistinct(s[1..], key, f);
      forall y | y in t ensures f(y) != f(s[0]) {
        assert y in multiset(s[1..]);
        var k :| 0 <= k < |s[1..]| && s[1..][k] == y;
        assert s[k + 1] == y;
      }
      InsertKeepsDistinct(s[0], t, key, f);
    }
  }

  /**
   * The first `n` elements of a sorted permutation are sorted, are elements
   * of the input, and no element left out has a larger key than one kept.
   */
  lemma SortedPrefixIsTop<T>(s: seq<T>, sorted: seq<T>, key: T -> real, n: nat, top: seq<T>)
    requires multiset(sorted) == multiset(s) && SortedDesc(sorted, key)
    requires n <= |sorted| && top == sorted[..n]
    ensures |top| == n
    ensures SortedDesc(top, key)
    ensures forall i :: 0 <= i < |top| ==> top[i] in s
    ensures forall e, i :: e in s && e !in top && 0 <= i < |top| ==> key(top[i]) >= key(e)
  {
    forall i | 0 <= i < n ensures top[i] in s {
      assert top[i] == sorted[i];
      assert sorted[i] in multiset(sorted);
    }
    forall e, i | e in s && e !in top && 0 <= i < n ensures key(top[i]) >= key(e) {
      assert e in multiset(sorted);
      var j :| 0 <= j < |sorted| && sorted[j] == e;
      assert top[i] == sorted[i];
    }
  }
}
