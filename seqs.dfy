/** Selecting elements of a sequence by position: the shape of a Python loop over
    `enumerate(items)` that skips some items with `continue` and appends one value for
    each of the others. `select(i, x)` is `None` for a skipped item and `Some(v)` for an
    item that contributes `v`. */
module Seqs {
  import opened Wrappers

  /** `[v for i, x in enumerate(s) if (v := select(i, x)) is not None]`, built from the back. */
  function SelectMap<T, U>(s: seq<T>, select: (nat, T) -> Option<U>): seq<U>
    decreases |s|
  {
    if s == [] then []
    else
      SelectMap(s[..|s| - 1], select)
      + match select(|s| - 1, s[|s| - 1]) case Some(v) => [v] case None => []
  }

  /** The positions of the contributing elements, in increasing order. */
  function Positions<T, U>(s: seq<T>, select: (nat, T) -> Option<U>): (p: seq<nat>)
    ensures forall k | 0 <= k < |p| :: p[k] < |s|
    decreases |s|
  {
    if s == [] then []
    else Positions(s[..|s| - 1], select) + (if select(|s| - 1, s[|s| - 1]).Some? then [|s| - 1] else [])
  }

  ghost predicate StrictlyIncreasing(p: seq<nat>) {
    forall a, b | 0 <= a < b < |p| :: p[a] < p[b]
  }

  /** The positions are exactly those of the contributing elements, each once, in order. */
  lemma {:induction false} PositionsExact<T, U>(s: seq<T>, select: (nat, T) -> Option<U>)
    ensures StrictlyIncreasing(Positions(s, select))
    ensures forall i | 0 <= i < |s| :: i in Positions(s, select) <==> select(i, s[i]).Some?
    decreases |s|
  {
    if s != [] {
      var init := s[..|s| - 1];
      PositionsExact(init, select);
      var p := Positions(s, select);
      var q := Positions(init, select);
      forall i | 0 <= i < |s|
        ensures i in p <==> select(i, s[i]).Some?
      {
        if i < |init| {
          assert s[i] == init[i];
          assert i in p <==> i in q;
        }
      }
    }
  }

  /** The selected values are those `select` gives at the contributing positions, in order. */
  lemma {:induction false} SelectMapAtPositions<T, U>(s: seq<T>, select: (nat, T) -> Option<U>)
    ensures |SelectMap(s, select)| == |Positions(s, select)|
    ensures forall k | 0 <= k < |Positions(s, select)| ::
      select(Positions(s, select)[k], s[Positions(s, select)[k]]) == Some(SelectMap(s, select)[k])
    decreases |s|
  {
    if s != [] {
      var init := s[..|s| - 1];
      SelectMapAtPositions(init, select);
      var q := Positions(init, select);
      forall k | 0 <= k < |q|
        ensures s[q[k]] == init[q[k]]
      {
      }
    }
  }

  /** `[v for x in s if (v := f(x)) is not None]` for an `f` that ignores positions, built
      from the front. */
  function FilterMap<T, U>(s: seq<T>, f: T -> Option<U>): seq<U>
    decreases |s|
  {
    if s == [] then [] else (match f(s[0]) case Some(v) => [v] case None => []) + FilterMap(s[1..], f)
  }

  lemma {:induction false} FilterMapAppend<T, U>(a: seq<T>, b: seq<T>, f: T -> Option<U>)
    ensures FilterMap(a + b, f) == FilterMap(a, f) + FilterMap(b, f)
    decreases |a|
  {
    if a == [] {
      assert a + b == b;
    } else {
      assert (a + b)[0] == a[0];
      assert (a + b)[1..] == a[1..] + b;
      FilterMapAppend(a[1..], b, f);
    }
  }

  lemma {:induction false} FilterMapNone<T, U>(s: seq<T>, f: T -> Option<U>)
    requires forall i | 0 <= i < |s| :: f(s[i]).None?
    ensures FilterMap(s, f) == []
    decreases |s|
  {
    if s != [] {
      FilterMapNone(s[1..], f);
    }
  }

  /** The index of the first element satisfying `p`, or `|s|`. */
  function First<T>(s: seq<T>, p: T -> bool): (k: nat)
    ensures k <= |s| && (k < |s| ==> p(s[k]))
    ensures forall j | 0 <= j < k :: !p(s[j])
    decreases |s|
  {
    if s == [] || p(s[0]) then 0 else 1 + First(s[1..], p)
  }

  /** Appending an element moves the first match only when there was none. */
  lemma {:induction false} FirstSnoc<T>(s: seq<T>, x: T, p: T -> bool)
    ensures First(s + [x], p) == if First(s, p) < |s| then First(s, p) else if p(x) then |s| else |s| + 1
    decreases |s|
  {
    if s == [] {
      assert s + [x] == [x];
    } else {
      assert (s + [x])[0] == s[0];
      assert (s + [x])[1..] == s[1..] + [x];
      FirstSnoc(s[1..], x, p);
    }
  }

  /** `s.index(x)` when `x` occurs in `s`: the position of its first occurrence. */
  function IndexOf<T(==)>(s: seq<T>, x: T): (k: nat)
    requires x in s
    ensures k < |s| && s[k] == x && forall j | 0 <= j < k :: s[j] != x
    decreases |s|
  {
    if s[0] == x then 0 else 1 + IndexOf(s[1..], x)
  }

  /** The value `f` gives for the last of the first `n` elements for which it gives one:
      a field that each matching element overwrites and a failed parse leaves alone. */
  function LastBefore<T, U>(s: seq<T>, n: nat, f: T -> Option<U>): Option<U>
    requires n <= |s|
  {
    if n == 0 then None
    else match f(s[n - 1]) case Some(v) => Some(v) case None => LastBefore(s, n - 1, f)
  }

  /** `LastBefore` is None exactly when none of the first `n` elements gives a value;
      otherwise it is the value of one of them after which none of them gives one. */
  lemma {:induction false} LastBeforeExact<T, U>(s: seq<T>, n: nat, f: T -> Option<U>)
    requires n <= |s|
    ensures LastBefore(s, n, f).None? <==> forall i | 0 <= i < n :: f(s[i]).None?
    ensures LastBefore(s, n, f).Some? ==> exists i | 0 <= i < n ::
      f(s[i]) == LastBefore(s, n, f) && forall j | i < j < n :: f(s[j]).None?
    decreases n
  {
    if n > 0 {
      LastBeforeExact(s, n - 1, f);
      if f(s[n - 1]).None? && LastBefore(s, n - 1, f).Some? {
        var i :| 0 <= i < n - 1 && f(s[i]) == LastBefore(s, n - 1, f) && forall j | i < j < n - 1 :: f(s[j]).None?;
        assert f(s[i]) == LastBefore(s, n, f);
      }
    }
  }

  /** When the `i`-th element gives a value and none of the later ones of the first `n`
      does, that value is the last one. */
  lemma {:induction false} LastBeforeAt<T, U>(s: seq<T>, n: nat, f: T -> Option<U>, i: nat)
    requires i < n <= |s| && f(s[i]).Some?
    requires forall j | i < j < n :: f(s[j]).None?
    ensures LastBefore(s, n, f) == f(s[i])
    decreases n
  {
    if n - 1 > i {
      LastBeforeAt(s, n - 1, f, i);
    }
  }

  /** The first element satisfying `p` is the one at `k` when none before it does (and
      `k == |s|` when none does at all). */
  lemma FirstAt<T>(s: seq<T>, p: T -> bool, k: nat)
    requires k <= |s| && (k < |s| ==> p(s[k]))
    requires forall j | 0 <= j < k :: !p(s[j])
    ensures First(s, p) == k
  {
  }

  /** The distinct elements of `s` in order of first occurrence (a dictionary's key order). */
  function Dedup<T(==,!new)>(s: seq<T>): (d: seq<T>)
    ensures forall x :: x in d <==> x in s
    decreases |s|
  {
    if s == [] then []
    else
      var init := s[..|s| - 1];
      assert s == init + [s[|s| - 1]];
      Dedup(init) + (if s[|s| - 1] in init then [] else [s[|s| - 1]])
  }

  ghost predicate Distinct<T>(s: seq<T>) {
    forall a, b | 0 <= a < b < |s| :: s[a] != s[b]
  }

  lemma {:induction false} DedupDistinct<T(!new)>(s: seq<T>)
    ensures Distinct(Dedup(s))
    decreases |s|
  {
    if s != [] {
      DedupDistinct(s[..|s| - 1]);
    }
  }

  /** Appending an element does not move the first occurrence of an element already there. */
  lemma IndexOfSnoc<T>(s: seq<T>, x: T, y: T)
    requires y in s
    ensures IndexOf(s + [x], y) == IndexOf(s, y)
  {
    var k, k' := IndexOf(s + [x], y), IndexOf(s, y);
    assert (s + [x])[k'] == y;
    assert s[k] == y;
  }

  /** `Dedup` lists the elements in the order of their first occurrence. */
  lemma {:induction false} DedupFirstSeen<T(!new)>(s: seq<T>)
    ensures forall a, b | 0 <= a < b < |Dedup(s)| :: IndexOf(s, Dedup(s)[a]) < IndexOf(s, Dedup(s)[b])
    decreases |s|
  {
    if s != [] {
      var init, x := s[..|s| - 1], s[|s| - 1];
      assert s == init + [x];
      DedupFirstSeen(init);
      var d, d' := Dedup(s), Dedup(init);
      forall y | y in init
        ensures IndexOf(s, y) == IndexOf(init, y) < |init|
      {
        IndexOfSnoc(init, x, y);
      }
      forall a, b | 0 <= a < b < |d|
        ensures IndexOf(s, d[a]) < IndexOf(s, d[b])
      {
        if b < |d'| {
          assert d[a] == d'[a] && d[b] == d'[b];
        } else {
          assert d[b] == x && x !in init && d[a] in init;
        }
      }
    }
  }

  lemma DropSnoc<T>(s: seq<T>, x: T, i: nat)
    requires i <= |s|
    ensures (s + [x])[i..] == s[i..] + [x]
  {
  }

  lemma SliceSnoc<T>(s: seq<T>, x: T, i: nat, j: nat)
    requires i <= j <= |s|
    ensures (s + [x])[i..j] == s[i..j]
  {
  }

  lemma AppendAssoc<T>(a: seq<T>, b: seq<T>, c: seq<T>)
    ensures (a + b) + c == a + (b + c)
  {
  }

  lemma TailAppend<T>(a: seq<T>, b: seq<T>)
    requires a != []
    ensures (a + b)[0] == a[0] && (a + b)[1..] == a[1..] + b
  {
  }

  lemma SplitAt<T>(s: seq<T>, k: nat)
    requires k <= |s|
    ensures s == s[..k] + s[k..]
  {
  }

  lemma TakeSnoc<T>(s: seq<T>, j: nat)
    requires j < |s|
    ensures s[..j + 1] == s[..j] + [s[j]]
  {
  }

  lemma TakeAll<T>(s: seq<T>)
    ensures s[..|s|] == s
  {
  }

  /** Cutting the tail of `s` at `k`: the part before is `s[1..k]`, the part after `s[k..]`. */
  lemma TailSplit<T>(s: seq<T>, k: nat)
    requires 1 <= k <= |s|
    ensures s[1..] == s[1..k] + s[k..] && s[1..k] == s[1..][..k - 1]
  {
  }

  /** A first match inside `a` is still the first match once `b` is appended. */
  lemma {:induction false} FirstAppend<T>(a: seq<T>, b: seq<T>, p: T -> bool)
    requires First(a, p) < |a|
    ensures First(a + b, p) == First(a, p)
    decreases |a|
  {
    TailAppend(a, b);
    if !p(a[0]) {
      FirstAppend(a[1..], b, p);
    }
  }

  lemma {:induction false} FilterMapAll<T>(s: seq<T>, f: T -> Option<T>)
    requires forall i | 0 <= i < |s| :: f(s[i]) == Some(s[i])
    ensures FilterMap(s, f) == s
    decreases |s|
  {
    if s != [] {
      FilterMapAll(s[1..], f);
      assert s == [s[0]] + s[1..];
    }
  }

  /** Elements past the first `n` do not affect `LastBefore`. */
  lemma {:induction false} LastBeforePrefix<T, U>(a: seq<T>, b: seq<T>, n: nat, f: T -> Option<U>)
    requires n <= |a|
    ensures LastBefore(a + b, n, f) == LastBefore(a, n, f)
    decreases n
  {
    if n > 0 {
      assert (a + b)[n - 1] == a[n - 1];
      LastBeforePrefix(a, b, n - 1, f);
    }
  }

  /** Replacing the first element leaves the others where they were. */
  lemma ReplaceHeadAt<T>(s: seq<T>, x: T, k: nat)
    requires 0 < k < |s|
    ensures ([x] + s[1..])[k] == s[k]
  {
  }
}
