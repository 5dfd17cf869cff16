/** Order-preserving filtering and summation over sequences. */
module Seqs {

  /** The elements of `s` that satisfy `p`, in their original order
      (a Python list comprehension with an `if`). */
  function Filter<T>(s: seq<T>, p: T -> bool): (r: seq<T>)
    ensures |r| <= |s|
    ensures forall i :: 0 <= i < |r| ==> p(r[i])
    decreases |s|
  {
    if s == [] then []
    else if p(s[0]) then [s[0]] + Filter(s[1..], p)
    else Filter(s[1..], p)
  }

  /** An element is kept exactly when it occurs in `s` and satisfies `p`. */
  lemma {:induction false} FilterMember<T>(s: seq<T>, p: T -> bool, x: T)
    ensures x in Filter(s, p) <==> x in s && p(x)
    decreases |s|
  {
    if s != [] {
      FilterMember(s[1..], p, x);
      ConsTail(s);
    }
  }

  /** Filtering distributes over concatenation: order is preserved. */
  lemma {:induction false} FilterAppend<T>(a: seq<T>, b: seq<T>, p: T -> bool)
    ensures Filter(a + b, p) == Filter(a, p) + Filter(b, p)
    decreases |a|
  {
    if a != [] {
      assert (a + b)[0] == a[0];
      assert (a + b)[1..] == a[1..] + b;
      FilterAppend(a[1..], b, p);
    } else {
      assert a + b == b;
    }
  }

  /** Nothing qualifies, so nothing is kept. */
  lemma {:induction false} FilterNone<T>(s: seq<T>, p: T -> bool)
    requires forall i :: 0 <= i < |s| ==> !p(s[i])
    ensures Filter(s, p) == []
    decreases |s|
  {
    if s != [] {
      assert forall i :: 0 <= i < |s[1..]| ==> s[1..][i] == s[i + 1];
      FilterNone(s[1..], p);
    }
  }

  /** The first element kept is the first element that qualifies. */
  lemma FilterFirst<T>(s: seq<T>, p: T -> bool, i: int)
    requires 0 <= i < |s| && p(s[i])
    requires forall j :: 0 <= j < i ==> !p(s[j])
    ensures Filter(s, p) != [] && Filter(s, p)[0] == s[i]
  {
    SplitAt(s, i);
    FilterAppend(s[..i], s[i..], p);
    FilterNone(s[..i], p);
    DropCons(s, i);
    FilterAppend([s[i]], s[i + 1..], p);
  }

  lemma FilterSnoc<T>(a: seq<T>, x: T, p: T -> bool)
    ensures Filter(a + [x], p) == if p(x) then Filter(a, p) + [x] else Filter(a, p)
  {
    FilterAppend(a, [x], p);
  }

  /** Filtering keeps everything exactly when every element qualifies. */
  lemma {:induction false} FilterAll<T>(s: seq<T>, p: T -> bool)
    ensures Filter(s, p) == s <==> forall i :: 0 <= i < |s| ==> p(s[i])
    decreases |s|
  {
    if s != [] {
      FilterAll(s[1..], p);
      if !p(s[0]) {
        assert |Filter(s, p)| <= |s[1..]| < |s|;
      } else {
        assert forall i :: 1 <= i < |s| ==> s[i] == s[1..][i - 1];
      }
    }
  }

  /** `sub` sits in `s` at the strictly increasing positions `idx`: it is
      a subsequence of `s`. */
  ghost predicate IndexedBy<T>(sub: seq<T>, s: seq<T>, idx: seq<nat>) {
    && |idx| == |sub|
    && (forall k :: 0 <= k < |idx| ==> idx[k] < |s| && sub[k] == s[idx[k]])
    && (forall k, l :: 0 <= k < l < |idx| ==> idx[k] < idx[l])
  }

  function Shift(idx: seq<nat>): (r: seq<nat>)
    ensures |r| == |idx| && forall k :: 0 <= k < |idx| ==> r[k] == idx[k] + 1
  {
    seq(|idx|, k requires 0 <= k < |idx| => idx[k] + 1)
  }

  lemma IndexedByCons<T>(x: T, sub: seq<T>, s: seq<T>, idx: seq<nat>)
    requires IndexedBy(sub, s, idx)
    ensures IndexedBy([x] + sub, [x] + s, [0] + Shift(idx))
  {
  }

  lemma IndexedBySkip<T>(x: T, sub: seq<T>, s: seq<T>, idx: seq<nat>)
    requires IndexedBy(sub, s, idx)
    ensures IndexedBy(sub, [x] + s, Shift(idx))
  {
  }

  lemma IndexedByExtend<T>(sub: seq<T>, s: seq<T>, idx: seq<nat>, x: T)
    requires IndexedBy(sub, s, idx)
    ensures IndexedBy(sub, s + [x], idx)
  {
  }

  lemma IndexedBySnoc<T>(sub: seq<T>, s: seq<T>, idx: seq<nat>, x: T)
    requires IndexedBy(sub, s, idx)
    ensures IndexedBy(sub + [x], s + [x], idx + [|s|])
  {
  }

  lemma ConsTail<T>(s: seq<T>)
    requires s != []
    ensures s == [s[0]] + s[1..]
  {
  }

  /** The kept elements sit in `s` at strictly increasing positions: the
      result is a subsequence of `s`. */
  lemma {:induction false} FilterSubsequence<T>(s: seq<T>, p: T -> bool) returns (idx: seq<nat>)
    ensures IndexedBy(Filter(s, p), s, idx)
    decreases |s|
  {
    if s == [] {
      idx := [];
    } else {
      var rest := FilterSubsequence(s[1..], p);
      ConsTail(s);
      if p(s[0]) {
        IndexedByCons(s[0], Filter(s[1..], p), s[1..], rest);
        idx := [0] + Shift(rest);
      } else {
        IndexedBySkip(s[0], Filter(s[1..], p), s[1..], rest);
        idx := Shift(rest);
      }
    }
  }

  /** The sequences concatenated in order (nested loops appending to one
      list). */
  function Flatten<T>(groups: seq<seq<T>>): seq<T>
    decreases |groups|
  {
    if groups == [] then [] else Flatten(groups[..|groups| - 1]) + groups[|groups| - 1]
  }

  lemma FlattenSnoc<T>(groups: seq<seq<T>>, g: seq<T>)
    ensures Flatten(groups + [g]) == Flatten(groups) + g
  {
    assert (groups + [g])[..|groups|] == groups;
  }

  lemma {:induction false} FlattenCons<T>(g: seq<T>, groups: seq<seq<T>>)
    ensures Flatten([g] + groups) == g + Flatten(groups)
    decreases |groups|
  {
    if groups == [] {
      assert [g][..0] == [];
    } else {
      var init, last := groups[..|groups| - 1], groups[|groups| - 1];
      assert groups == init + [last];
      assert [g] + groups == ([g] + init) + [last];
      FlattenSnoc([g] + init, last);
      FlattenSnoc(init, last);
      FlattenCons(g, init);
    }
  }

  /** `s[:n]`: the first `n` elements, or all of them when there are
      fewer. */
  function Take<T>(s: seq<T>, n: nat): (r: seq<T>)
    ensures |r| == if n < |s| then n else |s|
    ensures r == s[..|r|]
  {
    if n < |s| then s[..n] else s
  }

  /** Taking from a concatenation whose first part fits. */
  lemma TakeAppend<T>(a: seq<T>, b: seq<T>, n: nat)
    requires |a| <= n
    ensures Take(a + b, n) == a + Take(b, n - |a|)
  {
  }

  /** The first `n` kept elements, when the first `i + 1` elements of `s`
      already keep no more than `n`. */
  lemma TakeFilterSplit<T>(s: seq<T>, i: int, p: T -> bool, n: nat)
    requires 0 <= i < |s| && |Filter(s[..i + 1], p)| <= n
    ensures Take(Filter(s, p), n) == Filter(s[..i + 1], p) + Take(Filter(s[i + 1..], p), n - |Filter(s[..i + 1], p)|)
  {
    assert s == s[..i + 1] + s[i + 1..];
    FilterAppend(s[..i + 1], s[i + 1..], p);
    TakeAppend(Filter(s[..i + 1], p), Filter(s[i + 1..], p), n);
  }

  /** Once the first `i + 1` elements keep exactly `n`, the first `n` kept
      elements are those. */
  lemma TakeFilterDone<T>(s: seq<T>, i: int, p: T -> bool, n: nat)
    requires 0 <= i < |s| && |Filter(s[..i + 1], p)| == n
    ensures Take(Filter(s, p), n) == Filter(s[..i + 1], p)
  {
    TakeFilterSplit(s, i, p, n);
    assert Take(Filter(s[i + 1..], p), 0) == [];
    assert Filter(s[..i + 1], p) + [] == Filter(s[..i + 1], p);
  }

  function Sum(xs: seq<real>): real
    decreases |xs|
  {
    if xs == [] then 0.0 else xs[0] + Sum(xs[1..])
  }

  lemma {:induction false} SumAppend(a: seq<real>, b: seq<real>)
    ensures Sum(a + b) == Sum(a) + Sum(b)
    decreases |a|
  {
    if a != [] {
      assert (a + b)[0] == a[0];
      assert (a + b)[1..] == a[1..] + b;
      SumAppend(a[1..], b);
    } else {
      assert a + b == b;
    }
  }

  /** `[f(x) for x in s]`. */
  function Map<T, U>(s: seq<T>, f: T -> U): (r: seq<U>)
    ensures |r| == |s|
    ensures forall i :: 0 <= i < |s| ==> r[i] == f(s[i])
  {
    seq(|s|, i requires 0 <= i < |s| => f(s[i]))
  }

  lemma MapAppend<T, U>(a: seq<T>, b: seq<T>, f: T -> U)
    ensures Map(a + b, f) == Map(a, f) + Map(b, f)
  {
  }

  lemma MapTake<T, U>(s: seq<T>, f: T -> U, n: nat)
    ensures Take(Map(s, f), n) == Map(Take(s, n), f)
  {
  }

  /** What is kept from a prefix, mapped, is a prefix of what is kept from
      the whole, mapped. */
  lemma MapFilterPrefix<T, U>(a: seq<T>, b: seq<T>, p: T -> bool, f: T -> U)
    ensures Map(Filter(a, p), f) <= Map(Filter(a + b, p), f)
  {
    FilterAppend(a, b, p);
    MapAppend(Filter(a, p), Filter(b, p), f);
    PrefixOfAppend(Map(Filter(a, p), f), Map(Filter(b, p), f));
  }

  /** What is kept from a prefix of `s`, mapped, is a prefix of what is
      kept from `s`, mapped. */
  lemma MapFilterPrefixAt<T, U>(s: seq<T>, j: int, p: T -> bool, f: T -> U)
    requires 0 <= j <= |s|
    ensures Map(Filter(s[..j], p), f) <= Map(Filter(s, p), f)
  {
    SplitAt(s, j);
    MapFilterPrefix(s[..j], s[j..], p, f);
  }

  lemma SnocInit<T>(s: seq<T>)
    requires s != []
    ensures s == s[..|s| - 1] + [s[|s| - 1]]
  {
  }

  lemma DropCons<T>(s: seq<T>, i: int)
    requires 0 <= i < |s|
    ensures s[i..] == [s[i]] + s[i + 1..]
  {
  }

  lemma SliceSnoc<T>(s: seq<T>, i: int)
    requires 0 <= i < |s|
    ensures s[..i + 1] == s[..i] + [s[i]]
  {
  }

  lemma SliceAll<T>(s: seq<T>)
    ensures s[..|s|] == s
  {
  }

  lemma AppendNone<T>(a: seq<T>, s: seq<T>)
    ensures a + s[..0] == a
  {
  }

  lemma AppendSliceSnoc<T>(a: seq<T>, s: seq<T>, j: int)
    requires 0 <= j < |s|
    ensures a + s[..j + 1] == a + s[..j] + [s[j]]
  {
    assert s[..j + 1] == s[..j] + [s[j]];
  }

  lemma SplitAround<T>(s: seq<T>, i: int)
    requires 0 <= i < |s|
    ensures s == s[..i] + [s[i]] + s[i + 1..]
  {
  }

  lemma SplitAt<T>(s: seq<T>, j: int)
    requires 0 <= j <= |s|
    ensures s[..j] + s[j..] == s
  {
  }

  lemma PrefixOfAppend<T>(a: seq<T>, b: seq<T>)
    ensures a <= a + b
  {
    assert (a + b)[..|a|] == a;
  }

  /** Taking one summand out of the sum. */
  lemma SumRemove(xs: seq<real>, i: int)
    requires 0 <= i < |xs|
    ensures Sum(xs) == xs[i] + Sum(xs[..i] + xs[i + 1..])
  {
    SplitAround(xs, i);
    SumAppend(xs[..i] + [xs[i]], xs[i + 1..]);
    SumAppend(xs[..i], [xs[i]]);
    SumAppend(xs[..i], xs[i + 1..]);
  }

  lemma MultisetRemove<T>(a: seq<T>, b: seq<T>, i: int)
    requires multiset(a) == multiset(b) && a != []
    requires 0 <= i < |b| && b[i] == a[0]
    ensures multiset(a[1..]) == multiset(b[..i] + b[i + 1..])
  {
    SplitAround(b, i);
    ConsTail(a);
    assert multiset(b) == multiset(b[..i]) + multiset{b[i]} + multiset(b[i + 1..]);
    assert multiset(a[1..]) == multiset(a) - multiset{a[0]};
  }

  /** Summing `f` over a sequence does not depend on the order of its
      elements. */
  lemma {:induction false} SumMapPermutation<T>(a: seq<T>, b: seq<T>, f: T -> real)
    requires multiset(a) == multiset(b)
    ensures Sum(Map(a, f)) == Sum(Map(b, f))
    decreases |a|
  {
    if a == [] {
      assert |b| == |multiset(b)| == 0;
    } else {
      assert a[0] in multiset(b);
      var i :| 0 <= i < |b| && b[i] == a[0];
      MultisetRemove(a, b, i);
      var rest := b[..i] + b[i + 1..];
      SumMapPermutation(a[1..], rest, f);
      assert Map(a, f) == [f(a[0])] + Map(a[1..], f);
      var mb := Map(b, f);
      SumRemove(mb, i);
      assert mb[..i] + mb[i + 1..] == Map(rest, f) by {
        MapAppend(b[..i], b[i + 1..], f);
      }
    }
  }

  function Min(xs: seq<real>): (m: real)
    requires xs != []
    ensures m in xs
    ensures forall i :: 0 <= i < |xs| ==> m <= xs[i]
    decreases |xs|
  {
    if |xs| == 1 then xs[0]
    else
      var m := Min(xs[1..]);
      assert forall i :: 1 <= i < |xs| ==> xs[i] == xs[1..][i - 1];
      if xs[0] <= m then xs[0] else m
  }

  function Max(xs: seq<real>): (m: real)
    requires xs != []
    ensures m in xs
    ensures forall i :: 0 <= i < |xs| ==> xs[i] <= m
    decreases |xs|
  {
    if |xs| == 1 then xs[0]
    else
      var m := Max(xs[1..]);
      assert forall i :: 1 <= i < |xs| ==> xs[i] == xs[1..][i - 1];
      if xs[0] >= m then xs[0] else m
  }

  /** Every element lies between a lower and an upper bound, so the sum lies
      between the bounds scaled by the length. */
  lemma {:induction false} SumBounds(xs: seq<real>, lo: real, hi: real)
    requires forall i :: 0 <= i < |xs| ==> lo <= xs[i] <= hi
    ensures |xs| as real * lo <= Sum(xs) <= |xs| as real * hi
    decreases |xs|
  {
    if xs != [] {
      SumBounds(xs[1..], lo, hi);
      assert |xs| as real == 1.0 + |xs[1..]| as real;
    }
  }
}
