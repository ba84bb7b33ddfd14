/** Sequence helpers shared by the content tables, the classifier and the engine. */
module Seqs {

  /** No element occurs twice. */
  predicate NoDups<T(==)>(s: seq<T>) {
    forall i, j :: 0 <= i < j < |s| ==> s[i] != s[j]
  }

  function Min(a: int, b: int): int { if a <= b then a else b }

  function Max(a: int, b: int): int { if a >= b then a else b }

  /** The elements of `xs` that satisfy `p`, in their original order (the source's `Array.filter`). */
  function Filter<T(!new)>(xs: seq<T>, p: T -> bool): (r: seq<T>)
    ensures |r| <= |xs|
    ensures forall x :: x in r <==> x in xs && p(x)
    ensures NoDups(xs) ==> NoDups(r)
  {
    if |xs| == 0 then []
    else
      var rest := Filter(xs[1..], p);
      assert NoDups(xs) ==> NoDups(xs[1..]) && xs[0] !in xs[1..];
      if p(xs[0]) then [xs[0]] + rest else rest
  }

  /** Filtering keeps every satisfying element as often as it occurs and drops the others. */
  lemma {:induction false} FilterCounts<T(!new)>(xs: seq<T>, p: T -> bool)
    ensures forall x :: multiset(Filter(xs, p))[x] == if p(x) then multiset(xs)[x] else 0
    decreases |xs|
  {
    if |xs| > 0 {
      FilterCounts(xs[1..], p);
      assert xs == [xs[0]] + xs[1..];
      assert multiset(xs) == multiset{xs[0]} + multiset(xs[1..]);
    }
  }

  /** Filtering a sequence whose every element satisfies the predicate leaves it unchanged. */
  lemma {:induction false} FilterKeepsAll<T(!new)>(xs: seq<T>, p: T -> bool)
    requires forall i :: 0 <= i < |xs| ==> p(xs[i])
    ensures Filter(xs, p) == xs
    decreases |xs|
  {
    if |xs| > 0 {
      assert forall i :: 0 <= i < |xs[1..]| ==> xs[1..][i] == xs[i + 1];
      FilterKeepsAll(xs[1..], p);
      assert xs == [xs[0]] + xs[1..];
    }
  }

  /** Filtering keeps the order: the filter of a concatenation is the concatenation of the filters. */
  lemma {:induction false} FilterAppend<T(!new)>(xs: seq<T>, ys: seq<T>, p: T -> bool)
    ensures Filter(xs + ys, p) == Filter(xs, p) + Filter(ys, p)
    decreases |xs|
  {
    if |xs| > 0 {
      assert (xs + ys)[1..] == xs[1..] + ys;
      FilterAppend(xs[1..], ys, p);
    } else {
      assert xs + ys == ys;
    }
  }

  /** The first pick of a random oracle (0 once the oracle is exhausted). */
  function Head(picks: seq<nat>): nat { if |picks| > 0 then picks[0] else 0 }

  /** The oracle after its first pick. */
  function Tail(picks: seq<nat>): seq<nat> { if |picks| > 0 then picks[1..] else [] }

  /** `xs` without its element at position `k`. */
  function RemoveAt<T>(xs: seq<T>, k: nat): (r: seq<T>)
    requires k < |xs|
    ensures |r| == |xs| - 1
    ensures multiset(xs) == multiset(r) + multiset{xs[k]}
  {
    assert xs == xs[..k] + [xs[k]] + xs[k+1..];
    xs[..k] + xs[k+1..]
  }

  /**
   * A reordering of `xs` driven by the oracle `picks`: each pick chooses, modulo the number of
   * elements left, the next element to take. This stands for the source's
   * `sort(() => Math.random() - 0.5)`, of which only "the result is a permutation" is claimed.
   */
  function Shuffle<T>(xs: seq<T>, picks: seq<nat>): (r: seq<T>)
    ensures |r| == |xs|
    ensures multiset(r) == multiset(xs)
    decreases |xs|
  {
    if |xs| == 0 then []
    else
      var k := Head(picks) % |xs|;
      [xs[k]] + Shuffle(RemoveAt(xs, k), Tail(picks))
  }

  /** Picking position `k` first puts `xs[k]` in front of the shuffle of the rest. */
  lemma ShuffleFirstPick<T>(xs: seq<T>, k: nat, rest: seq<nat>)
    requires k < |xs|
    ensures Shuffle(xs, [k] + rest) == [xs[k]] + Shuffle(RemoveAt(xs, k), rest)
  {
    var picks := [k] + rest;
    assert Head(picks) == k;
    ModSmall(k, |xs|);
    assert Tail(picks) == rest;
  }

  lemma ModSmall(k: nat, n: nat)
    requires k < n
    ensures k % n == k
  {
  }

  /** Removing the same element from two permutations of each other leaves permutations. */
  lemma PermutationTail<T>(xs: seq<T>, ys: seq<T>, k: nat)
    requires multiset(ys) == multiset(xs)
    requires k < |xs| && |ys| > 0 && xs[k] == ys[0]
    ensures multiset(ys[1..]) == multiset(RemoveAt(xs, k))
  {
    assert ys == [ys[0]] + ys[1..];
    assert multiset(ys) == multiset{ys[0]} + multiset(ys[1..]);
    var r := RemoveAt(xs, k);
    assert multiset(xs) == multiset(r) + multiset{ys[0]};
    forall x
      ensures multiset(ys[1..])[x] == multiset(r)[x]
    {
      assert multiset(ys)[x] == multiset{ys[0]}[x] + multiset(ys[1..])[x];
      assert multiset(xs)[x] == multiset{ys[0]}[x] + multiset(r)[x];
    }
  }

  /** A position of `v` in `xs`. */
  function IndexOf<T(==)>(xs: seq<T>, v: T): (k: nat)
    requires v in xs
    ensures k < |xs| && xs[k] == v
  {
    if xs[0] == v then 0 else 1 + IndexOf(xs[1..], v)
  }

  /** Permutations of each other have the same length, and the first element of one occurs in the other. */
  lemma PermutationFacts<T>(xs: seq<T>, ys: seq<T>)
    requires multiset(ys) == multiset(xs)
    ensures |ys| == |xs|
    ensures |ys| > 0 ==> ys[0] in xs
  {
    assert |ys| == |multiset(ys)| == |multiset(xs)| == |xs|;
    if |ys| > 0 {
      assert ys[0] in multiset(ys);
    }
  }

  /** Every permutation of `xs` is the shuffle of `xs` under some oracle, here `picks`. */
  lemma {:induction false} ShuffleReachesEveryPermutation<T>(xs: seq<T>, ys: seq<T>) returns (picks: seq<nat>)
    requires multiset(ys) == multiset(xs)
    ensures Shuffle(xs, picks) == ys
    decreases |xs|
  {
    PermutationFacts(xs, ys);
    if |xs| == 0 {
      picks := [];
    } else {
      var k := IndexOf(xs, ys[0]);
      PermutationTail(xs, ys, k);
      var rest := ShuffleReachesEveryPermutation(RemoveAt(xs, k), ys[1..]);
      ShuffleFirstPick(xs, k, rest);
      picks := [k] + rest;
      assert Shuffle(xs, picks) == [ys[0]] + ys[1..];
      assert ys == [ys[0]] + ys[1..];
    }
  }

  /** In a sequence without duplicates every element is counted at most once. */
  lemma {:induction false} NoDupsCountsOnce<T>(s: seq<T>, x: T)
    requires NoDups(s)
    ensures multiset(s)[x] <= 1
    decreases |s|
  {
    if |s| > 0 {
      assert s == [s[0]] + s[1..];
      assert NoDups(s[1..]);
      NoDupsCountsOnce(s[1..], x);
      if x == s[0] {
        assert x !in s[1..];
      }
    }
  }

  /** A permutation of a duplicate-free sequence is duplicate-free. */
  lemma PermutationKeepsNoDups<T>(xs: seq<T>, ys: seq<T>)
    requires multiset(ys) == multiset(xs)
    requires NoDups(xs)
    ensures NoDups(ys)
  {
    forall i, j | 0 <= i < j < |ys|
      ensures ys[i] != ys[j]
    {
      if ys[i] == ys[j] {
        assert ys == ys[..i] + [ys[i]] + ys[i+1..j] + [ys[j]] + ys[j+1..];
        assert multiset(ys)[ys[i]] >= 2;
        NoDupsCountsOnce(xs, ys[i]);
      }
    }
  }

  /** A prefix of a duplicate-free sequence is duplicate-free. */
  lemma PrefixKeepsNoDups<T>(s: seq<T>, n: nat)
    requires n <= |s|
    requires NoDups(s)
    ensures NoDups(s[..n])
  {
  }

  /** The largest element of a non-empty sequence (the source's `Math.max(...xs)`). */
  function MaxOf(xs: seq<real>): (m: real)
    requires |xs| > 0
    ensures m in xs
    ensures forall x :: x in xs ==> x <= m
  {
    if |xs| == 1 then xs[0]
    else
      var rest := MaxOf(xs[1..]);
      assert forall x :: x in xs ==> x == xs[0] || x in xs[1..];
      if xs[0] >= rest then xs[0] else rest
  }

  /** The smallest element of a non-empty sequence (the source's `Math.min(...xs)`). */
  function MinOf(xs: seq<real>): (m: real)
    requires |xs| > 0
    ensures m in xs
    ensures forall x :: x in xs ==> m <= x
  {
    if |xs| == 1 then xs[0]
    else
      var rest := MinOf(xs[1..]);
      assert forall x :: x in xs ==> x == xs[0] || x in xs[1..];
      if xs[0] <= rest then xs[0] else rest
  }
}
