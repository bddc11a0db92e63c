/** List comprehensions and the loops that build lists by `append`/`extend`,
    as functions over sequences. */
module Seqs {
  import opened Wrappers

  /** Python's `next((x for x in s if p(x)), None)`: the first element that
      satisfies `p`, if any. */
  function First<T(!new)>(s: seq<T>, p: T -> bool): (r: Option<T>)
    ensures r.None? <==> forall x :: x in s ==> !p(x)
    ensures r.Some? ==> exists i :: 0 <= i < |s| && s[i] == r.value && p(r.value) &&
                                    forall j :: 0 <= j < i ==> !p(s[j])
    decreases |s|
  {
    if |s| == 0 then None
    else if p(s[0]) then Some(s[0])
    else
      var r := First(s[1..], p);
      assert forall x :: x in s <==> x == s[0] || x in s[1..];
      if r.Some? then
        assert exists i :: 1 <= i < |s| && s[i] == r.value && p(r.value) &&
                           forall j :: 0 <= j < i ==> !p(s[j]) by {
          var i :| 0 <= i < |s[1..]| && s[1..][i] == r.value && p(r.value) &&
                   forall j :: 0 <= j < i ==> !p(s[1..][j]);
          assert s[i + 1] == r.value;
          forall j | 0 <= j < i + 1 ensures !p(s[j]) {
            if j > 0 { assert s[j] == s[1..][j - 1]; }
          }
        }
        r
      else r
  }

  /** Python's `[x for x in s if p(x)]`. */
  function Filter<T(!new)>(s: seq<T>, p: T -> bool): (r: seq<T>)
    ensures |r| <= |s|
    ensures forall x :: x in r <==> x in s && p(x)
    decreases |s|
  {
    if |s| == 0 then []
    else
      var rest := Filter(s[1..], p);
      assert forall x :: x in s <==> x == s[0] || x in s[1..];
      (if p(s[0]) then [s[0]] else []) + rest
  }

  /** Filtering keeps the order: it distributes over concatenation. */
  lemma {:induction false} FilterConcat<T(!new)>(a: seq<T>, b: seq<T>, p: T -> bool)
    ensures Filter(a + b, p) == Filter(a, p) + Filter(b, p)
    decreases |a|
  {
    if |a| > 0 {
      assert (a + b)[0] == a[0] && (a + b)[1..] == a[1..] + b;
      FilterConcat(a[1..], b, p);
      var head := if p(a[0]) then [a[0]] else [];
      calc {
        Filter(a + b, p);
        head + Filter(a[1..] + b, p);
        head + (Filter(a[1..], p) + Filter(b, p));
        (head + Filter(a[1..], p)) + Filter(b, p);
      }
    } else {
      assert a + b == b;
    }
  }

  /** Filtering one more element of a prefix. */
  lemma FilterPrefixStep<T(!new)>(xs: seq<T>, p: T -> bool, k: nat)
    requires k < |xs|
    ensures Filter(xs[..k + 1], p) == Filter(xs[..k], p) + (if p(xs[k]) then [xs[k]] else [])
  {
    assert xs[..k + 1] == xs[..k] + [xs[k]];
    FilterConcat(xs[..k], [xs[k]], p);
    assert Filter([xs[k]], p) == (if p(xs[k]) then [xs[k]] else []) by {
      assert [xs[k]][1..] == [];
    }
  }

  /** Filtering keeps every copy of a kept element and drops every copy of
      any other. */
  lemma {:induction false} FilterMultiplicity<T(!new)>(s: seq<T>, p: T -> bool, x: T)
    ensures multiset(Filter(s, p))[x] == if p(x) then multiset(s)[x] else 0
    decreases |s|
  {
    if |s| > 0 {
      FilterMultiplicity(s[1..], p, x);
      assert s == [s[0]] + s[1..];
    }
  }

  /** Filtering keeps the multiplicity of every kept element. */
  lemma FilterMultiplicities<T(!new)>(s: seq<T>, p: T -> bool)
    ensures forall x :: multiset(Filter(s, p))[x] == if p(x) then multiset(s)[x] else 0
  {
    forall x {
      FilterMultiplicity(s, p, x);
    }
  }

  /** Python's `[f(x) for x in s]`. */
  function Map<T, U>(s: seq<T>, f: T -> U): (r: seq<U>)
    ensures |r| == |s|
    ensures forall i :: 0 <= i < |s| ==> r[i] == f(s[i])
  {
    seq(|s|, i requires 0 <= i < |s| => f(s[i]))
  }

  lemma MapConcat<T, U>(a: seq<T>, b: seq<T>, f: T -> U)
    ensures Map(a + b, f) == Map(a, f) + Map(b, f)
  {
  }

  /** The list a loop builds by `append`-ing `g(x)` for each `x` of `xs`
      that satisfies `p`, in order. */
  function Collect<T, U>(xs: seq<T>, p: T -> bool, g: T -> U): seq<U>
    decreases |xs|
  {
    if |xs| == 0 then []
    else Collect(xs[..|xs| - 1], p, g) + (if p(xs[|xs| - 1]) then [g(xs[|xs| - 1])] else [])
  }

  /** Collecting over one more element of a prefix. */
  lemma CollectPrefixStep<T, U>(xs: seq<T>, p: T -> bool, g: T -> U, k: nat)
    requires k < |xs|
    ensures Collect(xs[..k + 1], p, g) == Collect(xs[..k], p, g) + (if p(xs[k]) then [g(xs[k])] else [])
  {
    assert xs[..k + 1][..k] == xs[..k];
  }

  /** The loop is the comprehension `[g(x) for x in xs if p(x)]`. */
  lemma {:induction false} CollectIsMapFilter<T(!new), U>(xs: seq<T>, p: T -> bool, g: T -> U)
    ensures Collect(xs, p, g) == Map(Filter(xs, p), g)
    decreases |xs|
  {
    if |xs| > 0 {
      var init, last := xs[..|xs| - 1], xs[|xs| - 1];
      CollectIsMapFilter(init, p, g);
      assert xs == init + [last];
      FilterConcat(init, [last], p);
      MapConcat(Filter(init, p), Filter([last], p), g);
    }
  }

  /** An element of the collected list is `g(x)` for some kept `x`, and each
      kept `x` contributes `g(x)`. */
  lemma {:induction false} CollectMembership<T(!new), U>(xs: seq<T>, p: T -> bool, g: T -> U, y: U)
    ensures y in Collect(xs, p, g) <==> exists x :: x in xs && p(x) && y == g(x)
    decreases |xs|
  {
    if |xs| > 0 {
      var init := xs[..|xs| - 1];
      CollectMembership(init, p, g, y);
      assert forall x :: x in xs <==> x in init || x == xs[|xs| - 1];
    }
  }

  /** The list a loop builds by `extend`-ing with `f(x)` for each `x` of `xs`,
      in order. */
  function FlatMap<T, U>(xs: seq<T>, f: T -> seq<U>): seq<U>
    decreases |xs|
  {
    if |xs| == 0 then [] else FlatMap(xs[..|xs| - 1], f) + f(xs[|xs| - 1])
  }

  lemma {:induction false} FlatMapConcat<T, U>(a: seq<T>, b: seq<T>, f: T -> seq<U>)
    ensures FlatMap(a + b, f) == FlatMap(a, f) + FlatMap(b, f)
    decreases |b|
  {
    if |b| == 0 {
      assert a + b == a;
    } else {
      var init := b[..|b| - 1];
      assert (a + b)[..|a + b| - 1] == a + init;
      FlatMapConcat(a, init, f);
    }
  }

  /** The piece of the k-th element sits, whole, right after the pieces of
      the elements before it. */
  lemma FlatMapAt<T, U>(xs: seq<T>, f: T -> seq<U>, k: nat)
    requires k < |xs|
    ensures var off := |FlatMap(xs[..k], f)|;
      off + |f(xs[k])| <= |FlatMap(xs, f)| && FlatMap(xs, f)[off..off + |f(xs[k])|] == f(xs[k])
  {
    var init, rest := xs[..k + 1], xs[k + 1..];
    assert xs == init + rest;
    FlatMapConcat(init, rest, f);
    assert init[..k] == xs[..k];
    assert FlatMap(init, f) == FlatMap(xs[..k], f) + f(xs[k]);
  }

  /** The pieces of a prefix grow by one element's piece at a time. */
  /** With more elements after the flattened blocks, block `k` still sits at
      the offset of the blocks before it, element by element. */
  lemma FlatMapAtAppend<T, U>(xs: seq<T>, f: T -> seq<U>, k: nat, tail: seq<U>)
    requires k < |xs|
    ensures var off := |FlatMap(xs[..k], f)|;
      && off + |f(xs[k])| <= |FlatMap(xs, f)|
      && forall i :: 0 <= i < |f(xs[k])| ==> (FlatMap(xs, f) + tail)[off + i] == f(xs[k])[i]
  {
    var off := |FlatMap(xs[..k], f)|;
    FlatMapAt(xs, f, k);
    forall i | 0 <= i < |f(xs[k])|
      ensures (FlatMap(xs, f) + tail)[off + i] == f(xs[k])[i]
    {
      assert FlatMap(xs, f)[off..off + |f(xs[k])|][i] == f(xs[k])[i];
    }
  }

  /** What follows block `k`: the next block's first element, or the first
      element after all blocks. */
  lemma FlatMapNextAppend<T, U>(xs: seq<T>, f: T -> seq<U>, k: nat, tail: seq<U>)
    requires k < |xs| && |tail| > 0
    requires k + 1 < |xs| ==> |f(xs[k + 1])| > 0
    ensures var off := |FlatMap(xs[..k], f)| + |f(xs[k])|;
      && off < |FlatMap(xs, f) + tail|
      && (FlatMap(xs, f) + tail)[off] == if k + 1 < |xs| then f(xs[k + 1])[0] else tail[0]
  {
    FlatMapPrefixStep(xs, f, k);
    if k + 1 < |xs| {
      FlatMapAtAppend(xs, f, k + 1, tail);
    } else {
      assert xs[..k + 1] == xs;
    }
  }

  /** Between a prefix and a suffix, block `k` sits at the prefix's length
      plus the length of the blocks before it. */
  lemma FlatMapAtIn<T, U>(pre: seq<U>, xs: seq<T>, f: T -> seq<U>, k: nat, post: seq<U>)
    requires k < |xs|
    ensures var all, off, b := pre + FlatMap(xs, f) + post, |pre| + |FlatMap(xs[..k], f)|, f(xs[k]);
      && off + |b| <= |all|
      && forall i :: 0 <= i < |b| ==> all[off + i] == b[i]
  {
    FlatMapAtAppend(xs, f, k, post);
    ConcatAssoc(pre, FlatMap(xs, f), post);
  }

  /** Between a prefix and a suffix, what follows block `k` is the next
      block's first element, or the suffix's first. */
  lemma FlatMapNextIn<T, U>(pre: seq<U>, xs: seq<T>, f: T -> seq<U>, k: nat, post: seq<U>)
    requires k < |xs| && |post| > 0
    requires k + 1 < |xs| ==> |f(xs[k + 1])| > 0
    ensures var all, off := pre + FlatMap(xs, f) + post, |pre| + |FlatMap(xs[..k], f)| + |f(xs[k])|;
      && off < |all|
      && all[off] == if k + 1 < |xs| then f(xs[k + 1])[0] else post[0]
  {
    FlatMapNextAppend(xs, f, k, post);
    ConcatAssoc(pre, FlatMap(xs, f), post);
  }

  /** After a prefix, block `k` sits at the prefix's length plus the
      length of the blocks before it, as a whole and element by element. */
  lemma FlatMapAtAfter<T, U>(pre: seq<U>, xs: seq<T>, f: T -> seq<U>, k: nat)
    requires k < |xs|
    ensures var all, off, b := pre + FlatMap(xs, f), |pre| + |FlatMap(xs[..k], f)|, f(xs[k]);
      && off + |b| <= |all|
      && all[off..off + |b|] == b
      && forall i :: 0 <= i < |b| ==> all[off + i] == b[i]
  {
    var inner := |FlatMap(xs[..k], f)|;
    FlatMapAt(xs, f, k);
    SliceOfAppend(pre, FlatMap(xs, f), inner, |f(xs[k])|);
  }

  /** Python's `[f(x, i) for i, x in enumerate(xs[:n])]`. */
  function MapIndexed<T, U>(xs: seq<T>, f: (T, nat) -> U, n: nat): seq<U>
    requires n <= |xs|
  {
    if n == 0 then [] else MapIndexed(xs, f, n - 1) + [f(xs[n - 1], n - 1)]
  }

  lemma {:induction false} MapIndexedAt<T, U>(xs: seq<T>, f: (T, nat) -> U, n: nat)
    requires n <= |xs|
    ensures |MapIndexed(xs, f, n)| == n
    ensures forall i :: 0 <= i < n ==> MapIndexed(xs, f, n)[i] == f(xs[i], i)
  {
    if n > 0 {
      MapIndexedAt(xs, f, n - 1);
      var init := MapIndexed(xs, f, n - 1);
      forall i | 0 <= i < n ensures MapIndexed(xs, f, n)[i] == f(xs[i], i) {
        if i < n - 1 {
          assert (init + [f(xs[n - 1], n - 1)])[i] == init[i];
        }
      }
    }
  }

  /** Regrouping three concatenated pieces. */
  lemma ConcatAssoc<T>(a: seq<T>, b: seq<T>, c: seq<T>)
    ensures a + b + c == a + (b + c)
  {
  }

  /** Regrouping four concatenated pieces. */
  lemma ConcatAssoc3<T>(a: seq<T>, b: seq<T>, c: seq<T>, d: seq<T>)
    ensures a + b + c + d == a + b + (c + d) == a + (b + (c + d))
  {
  }

  /** A slice of the right operand of a concatenation, found in the whole. */
  lemma SliceOfAppend<T>(pre: seq<T>, body: seq<T>, i: nat, n: nat)
    requires i + n <= |body|
    ensures (pre + body)[|pre| + i..|pre| + i + n] == body[i..i + n]
  {
  }

  lemma FlatMapPrefixStep<T, U>(xs: seq<T>, f: T -> seq<U>, k: nat)
    requires k < |xs|
    ensures FlatMap(xs[..k + 1], f) == FlatMap(xs[..k], f) + f(xs[k])
  {
    assert xs[..k + 1][..k] == xs[..k];
  }

  /** Python's `xs[:n]`: the first `n` elements, or all of them when there
      are fewer. */
  function Take<T>(xs: seq<T>, n: nat): (r: seq<T>)
    ensures |r| == if |xs| < n then |xs| else n
    ensures r == xs[..|r|]
  {
    if |xs| < n then xs else xs[..n]
  }

  /** Collecting over the first `n` elements keeps at most `n` values, each
      the image of one of those elements, and every one of them that passes
      the test contributes its image. */
  lemma CollectTake<T(!new), U>(xs: seq<T>, n: nat, p: T -> bool, g: T -> U)
    ensures |Collect(Take(xs, n), p, g)| <= n
    ensures forall y :: y in Collect(Take(xs, n), p, g) ==>
      exists i :: 0 <= i < n && i < |xs| && p(xs[i]) && y == g(xs[i])
    ensures forall i :: 0 <= i < n && i < |xs| && p(xs[i]) ==> g(xs[i]) in Collect(Take(xs, n), p, g)
  {
    var head := Take(xs, n);
    CollectIsMapFilter(head, p, g);
    forall y | y in Collect(head, p, g)
      ensures exists i :: 0 <= i < n && i < |xs| && p(xs[i]) && y == g(xs[i])
    {
      CollectMembership(head, p, g, y);
      var x :| x in head && p(x) && y == g(x);
      var i :| 0 <= i < |head| && head[i] == x;
      assert xs[i] == x;
    }
    forall i | 0 <= i < n && i < |xs| && p(xs[i])
      ensures g(xs[i]) in Collect(head, p, g)
    {
      assert head[i] == xs[i];
      CollectMembership(head, p, g, g(xs[i]));
    }
  }

  /** An element of the result comes from the piece of some `x`, and every
      element of every piece is in the result. */
  lemma {:induction false} FlatMapMembership<T, U>(xs: seq<T>, f: T -> seq<U>, y: U)
    ensures y in FlatMap(xs, f) <==> exists k :: 0 <= k < |xs| && y in f(xs[k])
    decreases |xs|
  {
    if |xs| > 0 {
      var init := xs[..|xs| - 1];
      FlatMapMembership(init, f, y);
      if y in FlatMap(xs, f) && y !in f(xs[|xs| - 1]) {
        var k :| 0 <= k < |init| && y in f(init[k]);
        assert xs[k] == init[k];
      }
      if exists k :: 0 <= k < |xs| && y in f(xs[k]) {
        var k :| 0 <= k < |xs| && y in f(xs[k]);
        if k < |init| {
          assert y in f(init[k]);
        }
      }
    }
  }

  predicate NoDuplicates<T(==)>(s: seq<T>) {
    forall i, j :: 0 <= i < j < |s| ==> s[i] != s[j]
  }

  /** Appending a new element keeps a list free of duplicates. */
  lemma NoDuplicatesAppend<T>(s: seq<T>, x: T)
    requires NoDuplicates(s) && x !in s
    ensures NoDuplicates(s + [x])
  {
    forall i, j | 0 <= i < j < |s| + 1 ensures (s + [x])[i] != (s + [x])[j] {
      if j == |s| {
        assert s[i] in s;
      }
    }
  }

  /** Filtering a list without duplicates leaves none. */
  lemma {:induction false} FilterNoDuplicates<T(!new)>(s: seq<T>, p: T -> bool)
    requires NoDuplicates(s)
    ensures NoDuplicates(Filter(s, p))
    decreases |s|
  {
    if |s| > 0 {
      assert NoDuplicates(s[1..]);
      FilterNoDuplicates(s[1..], p);
      assert s[0] !in s[1..];
    }
  }

  /** A list without duplicates has as many distinct elements as entries. */
  lemma {:induction false} DistinctCardinality<T>(s: seq<T>)
    requires NoDuplicates(s)
    ensures |set x | x in s| == |s|
    decreases |s|
  {
    if |s| > 0 {
      var init := s[..|s| - 1];
      assert NoDuplicates(init);
      DistinctCardinality(init);
      assert (set x | x in s) == (set x | x in init) + {s[|s| - 1]};
      assert s[|s| - 1] !in init by {
        forall i | 0 <= i < |init|
          ensures init[i] != s[|s| - 1]
        {
          assert init[i] == s[i];
        }
      }
    }
  }

  /** The distinct elements of `s` in order of first appearance, as the keys of
      a Python dict filled while scanning `s`. */
  function Dedup<T(==,!new)>(s: seq<T>): (r: seq<T>)
    ensures NoDuplicates(r)
    ensures forall x :: x in r <==> x in s
    decreases |s|
  {
    if |s| == 0 then []
    else
      var init := Dedup(s[..|s| - 1]);
      assert forall x :: x in s <==> x in s[..|s| - 1] || x == s[|s| - 1];
      if s[|s| - 1] in init then init else init + [s[|s| - 1]]
  }

  /** The number of entries of `s` that satisfy `p`. */
  function Count<T(!new)>(s: seq<T>, p: T -> bool): nat {
    |Filter(s, p)|
  }

  /** A loop that builds `f(k, xs[k])` for each index in turn and stops at
      the first failure: the first `n` steps all succeed. */
  predicate AllOkUpTo<T, U, E>(xs: seq<T>, n: nat, f: (nat, T) -> Result<U, E>)
    requires n <= |xs|
  {
    n == 0 || (AllOkUpTo(xs, n - 1, f) && f(n - 1, xs[n - 1]).Ok?)
  }

  /** The first `n` steps succeed exactly when each of them does. */
  lemma {:induction false} AllOkUpToIff<T, U, E>(xs: seq<T>, n: nat, f: (nat, T) -> Result<U, E>)
    requires n <= |xs|
    ensures AllOkUpTo(xs, n, f) <==> forall k :: 0 <= k < n ==> f(k, xs[k]).Ok?
  {
    if n > 0 {
      AllOkUpToIff(xs, n - 1, f);
    }
  }

  /** A failing step stops every longer run of steps from succeeding. */
  lemma {:induction false} FailureStops<T, U, E>(xs: seq<T>, i: nat, n: nat, f: (nat, T) -> Result<U, E>)
    requires i < n <= |xs|
    requires f(i, xs[i]).Err?
    ensures !AllOkUpTo(xs, n, f)
    decreases n
  {
    if i < n - 1 {
      FailureStops(xs, i, n - 1, f);
    }
  }

  /** The values of the first `n` successful steps, in order. */
  function OkValuesUpTo<T, U, E>(xs: seq<T>, n: nat, f: (nat, T) -> Result<U, E>): (r: seq<U>)
    requires n <= |xs| && AllOkUpTo(xs, n, f)
    ensures |r| == n
  {
    if n == 0 then [] else OkValuesUpTo(xs, n - 1, f) + [f(n - 1, xs[n - 1]).value]
  }

  /** The k-th value is the one the k-th step produced. */
  lemma {:induction false} OkValuesUpToAt<T, U, E>(xs: seq<T>, n: nat, f: (nat, T) -> Result<U, E>, k: nat)
    requires k < n <= |xs| && AllOkUpTo(xs, n, f)
    ensures f(k, xs[k]) == Ok(OkValuesUpTo(xs, n, f)[k])
  {
    if k < n - 1 {
      OkValuesUpToAt(xs, n - 1, f, k);
    }
  }

  /** One more successful step extends the values by its own. */
  lemma OkValuesStep<T, U, E>(xs: seq<T>, i: nat, f: (nat, T) -> Result<U, E>, us: seq<U>, u: U)
    requires i < |xs| && AllOkUpTo(xs, i, f) && us == OkValuesUpTo(xs, i, f)
    requires f(i, xs[i]) == Ok(u)
    ensures AllOkUpTo(xs, i + 1, f) && us + [u] == OkValuesUpTo(xs, i + 1, f)
  {
  }

  /** The keys recorded for the first `n` elements. */
  function KeysUpTo<T, K>(xs: seq<T>, n: nat, key: (nat, T) -> K): set<K>
    requires n <= |xs|
  {
    if n == 0 then {} else KeysUpTo(xs, n - 1, key) + {key(n - 1, xs[n - 1])}
  }

  /** A key is recorded exactly when it is the key of one of the first `n`
      elements. */
  lemma {:induction false} KeysUpToMembership<T, K>(xs: seq<T>, n: nat, key: (nat, T) -> K, k: K)
    requires n <= |xs|
    ensures k in KeysUpTo(xs, n, key) <==> exists i :: 0 <= i < n && key(i, xs[i]) == k
  {
    if n > 0 {
      KeysUpToMembership(xs, n - 1, key, k);
    }
  }

  /** The loop: step `f` on each element and its position, appending each
      value and recording it under the element's key, until the first step
      that fails; that step's error ends the loop. */
  method CollectUntilErr<T, U, E, K>(xs: seq<T>, f: (nat, T) -> Result<U, E>, key: (nat, T) -> K)
    returns (r: Result<seq<U>, E>, m: map<K, U>)
    ensures r.Ok? <==> AllOkUpTo(xs, |xs|, f)
    ensures r.Ok? ==> r.value == OkValuesUpTo(xs, |xs|, f) && m.Keys == KeysUpTo(xs, |xs|, key)
    ensures r.Err? ==> exists i :: 0 <= i < |xs| && AllOkUpTo(xs, i, f) && f(i, xs[i]) == Err(r.error)
  {
    var values: seq<U> := [];
    m := map[];
    var i := 0;
    while i < |xs|
      invariant 0 <= i <= |xs|
      invariant AllOkUpTo(xs, i, f)
      invariant values == OkValuesUpTo(xs, i, f)
      invariant m.Keys == KeysUpTo(xs, i, key)
    {
      var k := key(|values|, xs[i]);
      var step := f(|values|, xs[i]);
      if step.Err? {
        FailureStops(xs, i, |xs|, f);
        return Err(step.error), m;
      }
      OkValuesStep(xs, i, f, values, step.value);
      values := values + [step.value];
      m := m[k := step.value];
      i := i + 1;
    }
    r := Ok(values);
  }
}
