/**
 * Python's `sorted(xs, key=key, reverse=True)` followed by `[:k]`, as the
 * beam search uses it to prune its candidates. Python's sort is stable also
 * with `reverse=True`: elements with equal keys keep their original order.
 */
module Ranking {
  import opened Outcomes

  /** Keys never increase from left to right. */
  predicate NonIncreasing<T>(s: seq<T>, key: T -> real) {
    forall a, b :: 0 <= a < b < |s| ==> key(s[a]) >= key(s[b])
  }

  /** The elements of `s` whose key is `p`, in their order in `s`. */
  function WithKey<T>(s: seq<T>, key: T -> real, p: real): seq<T> {
    if s == [] then []
    else (if key(s[0]) == p then [s[0]] else []) + WithKey(s[1..], key, p)
  }

  /** Places `x` after every element of `s` whose key is at least `x`'s. */
  function Insert<T>(x: T, s: seq<T>, key: T -> real): (r: seq<T>)
    ensures |r| == |s| + 1
  {
    if s == [] then [x]
    else if key(s[0]) >= key(x) then
      assert s == [s[0]] + s[1..];
      [s[0]] + Insert(x, s[1..], key)
    else [x] + s
  }

  /** The stable descending sort, by insertion from the left. */
  function SortDesc<T>(s: seq<T>, key: T -> real): (r: seq<T>)
    ensures |r| == |s|
  {
    if s == [] then []
    else Insert(s[|s| - 1], SortDesc(s[..|s| - 1], key), key)
  }

  /** The first `k` elements of the stable descending sort. */
  function TopK<T>(s: seq<T>, k: nat, key: T -> real): (r: seq<T>)
    ensures |r| == Min(k, |s|)
  {
    SortDesc(s, key)[..Min(k, |s|)]
  }

  /** Inserting adds exactly `x`. */
  lemma {:induction false} InsertPermutes<T>(x: T, s: seq<T>, key: T -> real)
    ensures multiset(Insert(x, s, key)) == multiset(s) + multiset{x}
  {
    if s != [] && key(s[0]) >= key(x) {
      var t := Insert(x, s[1..], key);
      InsertPermutes(x, s[1..], key);
      assert Insert(x, s, key) == [s[0]] + t;
      assert multiset([s[0]] + t) == multiset([s[0]]) + multiset(t);
      assert s == [s[0]] + s[1..];
    }
  }

  /** The sort is a permutation. */
  lemma {:induction false} SortDescPermutes<T>(s: seq<T>, key: T -> real)
    ensures multiset(SortDesc(s, key)) == multiset(s)
  {
    if s != [] {
      var init, last := s[..|s| - 1], s[|s| - 1];
      assert s == init + [last];
      SortDescPermutes(init, key);
      InsertPermutes(last, SortDesc(init, key), key);
    }
  }

  /** The sort orders by non-increasing key. */
  lemma {:induction false} SortDescSorted<T>(s: seq<T>, key: T -> real)
    ensures NonIncreasing(SortDesc(s, key), key)
  {
    if s != [] {
      SortDescSorted(s[..|s| - 1], key);
      InsertSorted(s[|s| - 1], SortDesc(s[..|s| - 1], key), key);
    }
  }

  /** The kept elements are ordered by non-increasing key and taken from the input. */
  lemma TopKSound<T>(s: seq<T>, k: nat, key: T -> real)
    ensures NonIncreasing(TopK(s, k, key), key)
    ensures multiset(TopK(s, k, key)) <= multiset(s)
  {
    var sorted := SortDesc(s, key);
    var m := Min(k, |s|);
    SortDescSorted(s, key);
    SortDescPermutes(s, key);
    assert sorted == sorted[..m] + sorted[m..];
  }

  lemma {:induction false} InsertSorted<T>(x: T, s: seq<T>, key: T -> real)
    requires NonIncreasing(s, key)
    ensures NonIncreasing(Insert(x, s, key), key)
  {
    if s != [] && key(s[0]) >= key(x) {
      var t := Insert(x, s[1..], key);
      InsertSorted(x, s[1..], key);
      InsertPermutes(x, s[1..], key);
      forall b | 0 <= b < |t| ensures key(s[0]) >= key(t[b]) {
        assert t[b] in multiset(t);
        if t[b] != x {
          assert t[b] in multiset(s[1..]);
          assert t[b] in s[1..];
          var c :| 0 <= c < |s[1..]| && s[1..][c] == t[b];
          assert s[c + 1] == t[b];
        }
      }
      assert Insert(x, s, key) == [s[0]] + t;
    }
  }

  lemma {:induction false} WithKeyAppend<T>(a: seq<T>, b: seq<T>, key: T -> real, p: real)
    ensures WithKey(a + b, key, p) == WithKey(a, key, p) + WithKey(b, key, p)
  {
    if a != [] {
      assert (a + b)[1..] == a[1..] + b;
      WithKeyAppend(a[1..], b, key, p);
    } else {
      assert a + b == b;
    }
  }

  /** No element of `s` has a key as large as `p`. */
  lemma {:induction false} WithKeyBelow<T>(s: seq<T>, key: T -> real, p: real)
    requires forall i :: 0 <= i < |s| ==> key(s[i]) < p
    ensures WithKey(s, key, p) == []
  {
    if s != [] {
      WithKeyBelow(s[1..], key, p);
    }
  }

  lemma WithKeyCons<T>(y: T, t: seq<T>, key: T -> real, p: real)
    ensures WithKey([y] + t, key, p) == (if key(y) == p then [y] else []) + WithKey(t, key, p)
  {
    assert ([y] + t)[1..] == t;
  }

  lemma NonIncreasingTail<T>(s: seq<T>, key: T -> real)
    requires s != [] && NonIncreasing(s, key)
    ensures NonIncreasing(s[1..], key)
  {
    forall a, b | 0 <= a < b < |s| - 1 ensures key(s[1..][a]) >= key(s[1..][b]) {
      assert s[1..][a] == s[a + 1] && s[1..][b] == s[b + 1];
    }
  }

  /** Inserting `x` appends it to the run of elements that share its key. */
  lemma {:induction false} WithKeyInsert<T>(x: T, s: seq<T>, key: T -> real, p: real)
    requires NonIncreasing(s, key)
    ensures WithKey(Insert(x, s, key), key, p) == WithKey(s, key, p) + (if key(x) == p then [x] else [])
  {
    if s == [] {
      WithKeyCons(x, [], key, p);
      assert [x] + [] == [x];
    } else if key(s[0]) >= key(x) {
      NonIncreasingTail(s, key);
      WithKeyInsert(x, s[1..], key, p);
      WithKeyInsertBehind(x, s, key, p);
    } else {
      WithKeyInsertFront(x, s, key, p);
    }
  }

  /** The head of `s` stays in front and `x` goes into the rest. */
  lemma WithKeyInsertBehind<T>(x: T, s: seq<T>, key: T -> real, p: real)
    requires s != [] && key(s[0]) >= key(x)
    requires WithKey(Insert(x, s[1..], key), key, p) == WithKey(s[1..], key, p) + (if key(x) == p then [x] else [])
    ensures WithKey(Insert(x, s, key), key, p) == WithKey(s, key, p) + (if key(x) == p then [x] else [])
  {
    var t := Insert(x, s[1..], key);
    var head := if key(s[0]) == p then [s[0]] else [];
    var tail := if key(x) == p then [x] else [];
    var rest := WithKey(s[1..], key, p);
    assert Insert(x, s, key) == [s[0]] + t;
    WithKeyCons(s[0], t, key, p);
    WithKeyCons(s[0], s[1..], key, p);
    assert [s[0]] + s[1..] == s;
    var whole := WithKey(s, key, p);
    assert whole == head + rest;
    assert WithKey(Insert(x, s, key), key, p) == head + (rest + tail);
    AppendAssoc(head, rest, tail);
  }

  lemma AppendAssoc<T>(a: seq<T>, b: seq<T>, c: seq<T>)
    ensures a + (b + c) == (a + b) + c
  {
  }

  /** `x` outranks the head of `s`, so it goes in front. */
  lemma WithKeyInsertFront<T>(x: T, s: seq<T>, key: T -> real, p: real)
    requires s != [] && key(s[0]) < key(x) && NonIncreasing(s, key)
    ensures WithKey(Insert(x, s, key), key, p) == WithKey(s, key, p) + (if key(x) == p then [x] else [])
  {
    assert Insert(x, s, key) == [x] + s;
    WithKeyCons(x, s, key, p);
    if key(x) == p {
      WithKeyBelow(s, key, p);
    }
  }

  /**
   * Stability: for every key value, the elements with that key appear in the
   * sorted sequence in the same order as in the input.
   */
  lemma {:induction false} SortDescStable<T>(s: seq<T>, key: T -> real, p: real)
    ensures WithKey(SortDesc(s, key), key, p) == WithKey(s, key, p)
  {
    if s != [] {
      var init, last := s[..|s| - 1], s[|s| - 1];
      assert s == init + [last];
      SortDescStable(init, key, p);
      SortDescSorted(init, key);
      WithKeyInsert(last, SortDesc(init, key), key, p);
      WithKeyAppend(init, [last], key, p);
    }
  }

  /** In a non-increasing sequence, everything before a cut ranks at least as high as everything after it. */
  lemma SplitDominates<T>(sorted: seq<T>, m: nat, key: T -> real)
    requires m <= |sorted| && NonIncreasing(sorted, key)
    ensures forall x, y :: x in sorted[..m] && y in sorted[m..] ==> key(x) >= key(y)
  {
    forall x, y | x in sorted[..m] && y in sorted[m..] ensures key(x) >= key(y) {
      var a :| 0 <= a < m && sorted[..m][a] == x;
      var c :| 0 <= c < |sorted| - m && sorted[m..][c] == y;
      assert sorted[a] == x && sorted[m + c] == y;
    }
  }

  /** Every element TopK drops ranks no higher than every element it keeps. */
  lemma TopKDominates<T>(s: seq<T>, k: nat, key: T -> real)
    ensures forall x, y :: x in TopK(s, k, key) && y in multiset(s) - multiset(TopK(s, k, key)) ==> key(x) >= key(y)
  {
    var sorted := SortDesc(s, key);
    var m := Min(k, |s|);
    var r, rest := sorted[..m], sorted[m..];
    SortDescSorted(s, key);
    SortDescPermutes(s, key);
    assert sorted == r + rest;
    assert multiset(sorted) == multiset(r) + multiset(rest);
    assert multiset(s) - multiset(r) == multiset(rest);
    SplitDominates(sorted, m, key);
  }
}
