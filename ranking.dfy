/** Python's `sorted(items, key=key, reverse=True)[:n]`: a stable sort by descending key
    (elements with equal keys keep their original order) truncated to its first `n` elements. */
module Ranking {

  function Min(a: nat, b: nat): nat { if a <= b then a else b }

  ghost predicate NonIncreasing<T>(s: seq<T>, key: T -> int) {
    forall i, j | 0 <= i < j < |s| :: key(s[i]) >= key(s[j])
  }

  /** The elements of `s` whose key is `v`, in their order in `s`. */
  function WithKey<T>(s: seq<T>, key: T -> int, v: int): seq<T>
    decreases |s|
  {
    if s == [] then [] else (if key(s[0]) == v then [s[0]] else []) + WithKey(s[1..], key, v)
  }

  /** Places `x` in front of the first element whose key is not larger than its own. */
  function Insert<T>(x: T, s: seq<T>, key: T -> int): (r: seq<T>)
    ensures |r| == |s| + 1 && multiset(r) == multiset(s) + multiset{x}
    decreases |s|
  {
    if s == [] then [x]
    else if key(x) >= key(s[0]) then [x] + s
    else
      assert s == [s[0]] + s[1..];
      [s[0]] + Insert(x, s[1..], key)
  }

  /** An insertion sort by descending key; each element is inserted in front of the equal
      keys of the elements that followed it, which keeps the sort stable. */
  function SortDesc<T>(s: seq<T>, key: T -> int): (r: seq<T>)
    ensures |r| == |s| && multiset(r) == multiset(s)
    decreases |s|
  {
    if s == [] then []
    else
      assert s == [s[0]] + s[1..];
      Insert(s[0], SortDesc(s[1..], key), key)
  }

  /** `sorted(s, key=key, reverse=True)[:n]`. */
  function Top<T>(s: seq<T>, key: T -> int, n: nat): (r: seq<T>)
    ensures |r| == Min(n, |s|)
  {
    SortDesc(s, key)[..Min(n, |s|)]
  }

  /** Inserting below a bound keeps every key below it. */
  lemma {:induction false} InsertBounded<T>(x: T, s: seq<T>, key: T -> int, b: int)
    requires key(x) <= b && forall i | 0 <= i < |s| :: key(s[i]) <= b
    ensures forall j | 0 <= j < |Insert(x, s, key)| :: key(Insert(x, s, key)[j]) <= b
    decreases |s|
  {
    if s != [] && key(x) < key(s[0]) {
      var t := Insert(x, s[1..], key);
      InsertBounded(x, s[1..], key, b);
      assert Insert(x, s, key) == [s[0]] + t;
    }
  }

  /** `InsertSorted` past the first element, given the fact for the rest. */
  lemma InsertSortedStep<T>(x: T, s: seq<T>, key: T -> int)
    requires s != [] && key(x) < key(s[0]) && NonIncreasing(s, key)
    requires NonIncreasing(Insert(x, s[1..], key), key)
    ensures NonIncreasing(Insert(x, s, key), key)
  {
    var t := Insert(x, s[1..], key);
    InsertBounded(x, s[1..], key, key(s[0]));
    var r := [s[0]] + t;
    assert Insert(x, s, key) == r;
    forall i, j | 0 <= i < j < |r|
      ensures key(r[i]) >= key(r[j])
    {
      assert r[j] == t[j - 1];
      if i > 0 {
        assert r[i] == t[i - 1];
      }
    }
  }

  lemma {:induction false} InsertSorted<T>(x: T, s: seq<T>, key: T -> int)
    requires NonIncreasing(s, key)
    ensures NonIncreasing(Insert(x, s, key), key)
    decreases |s|
  {
    if s != [] && key(x) < key(s[0]) {
      InsertSorted(x, s[1..], key);
      InsertSortedStep(x, s, key);
    }
  }

  lemma WithKeyCons<T>(y: T, t: seq<T>, key: T -> int, v: int)
    ensures WithKey([y] + t, key, v) == (if key(y) == v then [y] else []) + WithKey(t, key, v)
  {
    assert ([y] + t)[0] == y;
    assert ([y] + t)[1..] == t;
  }

  /** Two pieces of which one is empty can be put in either order. */
  lemma SwapEmpty<T>(a: seq<T>, b: seq<T>, w: seq<T>)
    requires a == [] || b == []
    ensures a + (b + w) == b + (a + w)
  {
    if a == [] {
      assert a + (b + w) == b + w == b + (a + w);
    } else {
      assert a + (b + w) == a + w == b + (a + w);
    }
  }

  /** `InsertWithKey` past the first element, given the fact for the rest. */
  lemma InsertWithKeyStep<T>(x: T, s: seq<T>, key: T -> int, v: int)
    requires s != [] && key(x) < key(s[0])
    requires WithKey(Insert(x, s[1..], key), key, v) == (if key(x) == v then [x] else []) + WithKey(s[1..], key, v)
    ensures WithKey(Insert(x, s, key), key, v) == (if key(x) == v then [x] else []) + WithKey(s, key, v)
  {
    var t := Insert(x, s[1..], key);
    assert Insert(x, s, key) == [s[0]] + t;
    WithKeyCons(s[0], t, key, v);
    WithKeyCons(s[0], s[1..], key, v);
    assert [s[0]] + s[1..] == s;
    var hx := if key(x) == v then [x] else [];
    var h0 := if key(s[0]) == v then [s[0]] else [];
    SwapEmpty(h0, hx, WithKey(s[1..], key, v));
  }

  /** Inserting `x` puts it in front of every element of `s` with the same key. */
  lemma {:induction false} InsertWithKey<T>(x: T, s: seq<T>, key: T -> int, v: int)
    ensures WithKey(Insert(x, s, key), key, v) == (if key(x) == v then [x] else []) + WithKey(s, key, v)
    decreases |s|
  {
    if s == [] {
      WithKeyCons(x, s, key, v);
      assert [x] + s == [x];
    } else if key(x) >= key(s[0]) {
      WithKeyCons(x, s, key, v);
    } else {
      InsertWithKey(x, s[1..], key, v);
      InsertWithKeyStep(x, s, key, v);
    }
  }

  lemma {:induction false} SortDescSorted<T>(s: seq<T>, key: T -> int)
    ensures NonIncreasing(SortDesc(s, key), key)
    decreases |s|
  {
    if s != [] {
      SortDescSorted(s[1..], key);
      InsertSorted(s[0], SortDesc(s[1..], key), key);
    }
  }

  /** Stability: sorting leaves the relative order of equal keys untouched. */
  lemma {:induction false} SortDescStable<T>(s: seq<T>, key: T -> int, v: int)
    ensures WithKey(SortDesc(s, key), key, v) == WithKey(s, key, v)
    decreases |s|
  {
    if s != [] {
      SortDescStable(s[1..], key, v);
      InsertWithKey(s[0], SortDesc(s[1..], key), key, v);
    }
  }

  lemma {:induction false} WithKeyAppend<T>(a: seq<T>, b: seq<T>, key: T -> int, v: int)
    ensures WithKey(a + b, key, v) == WithKey(a, key, v) + WithKey(b, key, v)
    decreases |a|
  {
    if a == [] {
      assert a + b == b;
    } else {
      WithKeyCons(a[0], a[1..] + b, key, v);
      WithKeyCons(a[0], a[1..], key, v);
      assert [a[0]] + (a[1..] + b) == a + b;
      assert [a[0]] + a[1..] == a;
      WithKeyAppend(a[1..], b, key, v);
    }
  }

  /** The top `n` are the `min(n, |s|)` largest keys in non-increasing order, drawn from `s`. */
  lemma TopSorted<T>(s: seq<T>, key: T -> int, n: nat)
    ensures NonIncreasing(Top(s, key, n), key)
    ensures multiset(Top(s, key, n)) <= multiset(s)
  {
    var q := SortDesc(s, key);
    var m := Min(n, |s|);
    SortDescSorted(s, key);
    SplitMultiset(q, m);
  }

  lemma SplitMultiset<T>(q: seq<T>, m: nat)
    requires m <= |q|
    ensures q == q[..m] + q[m..] && multiset(q) == multiset(q[..m]) + multiset(q[m..])
  {
    assert q == q[..m] + q[m..];
  }

  /** An element left out of the top `n` lies in the rest of the sorted sequence. */
  lemma DroppedInTail<T>(s: seq<T>, key: T -> int, n: nat, x: T)
    requires x in multiset(s) - multiset(Top(s, key, n))
    ensures x in SortDesc(s, key)[Min(n, |s|)..]
  {
    var q := SortDesc(s, key);
    var m := Min(n, |s|);
    var top := q[..m];
    var rest := q[m..];
    SplitMultiset(q, m);
    assert multiset(s) == multiset(top) + multiset(rest);
    assert multiset(rest)[x] > 0;
    assert x in multiset(rest);
  }

  /** In a sorted sequence, every element before `m` has a key at least that of any
      element from `m` on. */
  lemma SortedSplit<T>(q: seq<T>, key: T -> int, m: nat)
    requires NonIncreasing(q, key) && m <= |q|
    ensures forall i, y | 0 <= i < m && y in q[m..] :: key(q[i]) >= key(y)
  {
    forall i, y | 0 <= i < m && y in q[m..]
      ensures key(q[i]) >= key(y)
    {
      var k :| 0 <= k < |q[m..]| && q[m..][k] == y;
      assert y == q[m + k];
    }
  }

  /** Nothing left out of the top `n` has a larger key than any element kept. */
  lemma TopDominates<T>(s: seq<T>, key: T -> int, n: nat, x: T)
    requires x in multiset(s) - multiset(Top(s, key, n))
    ensures forall i | 0 <= i < |Top(s, key, n)| :: key(x) <= key(Top(s, key, n)[i])
  {
    var q := SortDesc(s, key);
    var m := Min(n, |s|);
    DroppedInTail(s, key, n, x);
    SortDescSorted(s, key);
    SortedSplit(q, key, m);
    var r := Top(s, key, n);
    forall i | 0 <= i < |r|
      ensures key(x) <= key(r[i])
    {
      assert r[i] == q[i];
    }
  }

  /** Among equal keys, the elements kept in the top `n` are the earliest ones of `s`,
      in their original order. */
  lemma TopStable<T>(s: seq<T>, key: T -> int, n: nat, v: int)
    ensures WithKey(Top(s, key, n), key, v) <= WithKey(s, key, v)
  {
    var q := SortDesc(s, key);
    var m := Min(n, |s|);
    SplitMultiset(q, m);
    WithKeyAppend(q[..m], q[m..], key, v);
    SortDescStable(s, key, v);
  }

  /** Everything the top `n` promises, in one place. */
  lemma TopRanks<T>(s: seq<T>, key: T -> int, n: nat)
    ensures var top := Top(s, key, n);
      && |top| == Min(n, |s|)
      && NonIncreasing(top, key)
      && multiset(top) <= multiset(s)
      && (forall x | x in multiset(s) - multiset(top) :: forall i | 0 <= i < |top| :: key(x) <= key(top[i]))
      && (forall v :: WithKey(top, key, v) <= WithKey(s, key, v))
  {
    TopSorted(s, key, n);
    forall x | x in multiset(s) - multiset(Top(s, key, n)) {
      TopDominates(s, key, n, x);
    }
    forall v {
      TopStable(s, key, n, v);
    }
  }
}
