/** Permutations given as index sequences: the explicit form of the
    generator's `random.shuffle`. */
module Permutations {

  /** No element of `s` occurs twice. */
  ghost predicate Distinct<T>(s: seq<T>) {
    forall i, j :: 0 <= i < j < |s| ==> s[i] != s[j]
  }

  /** `order` lists each of the indices `0 .. n-1` exactly once. */
  ghost predicate IsPermutation(order: seq<nat>, n: nat) {
    && |order| == n
    && (forall i :: 0 <= i < n ==> order[i] < n)
    && Distinct(order)
  }

  /** The indices `0 .. n-1`. */
  function Range(n: nat): set<nat> {
    if n == 0 then {} else Range(n - 1) + {n - 1}
  }

  function Elements(s: seq<nat>): set<nat> {
    set x | x in s
  }

  lemma {:induction false} RangeMembers(n: nat)
    ensures forall k :: k in Range(n) <==> 0 <= k < n
  {
    if n > 0 {
      RangeMembers(n - 1);
    }
  }

  lemma {:induction false} RangeSize(n: nat)
    ensures |Range(n)| == n
  {
    if n > 0 {
      RangeSize(n - 1);
      RangeMembers(n - 1);
      assert n - 1 !in Range(n - 1);
    }
  }

  lemma {:induction false} DistinctElements(s: seq<nat>)
    requires Distinct(s)
    ensures |Elements(s)| == |s|
  {
    if |s| > 0 {
      DistinctElements(s[1..]);
      assert Elements(s) == {s[0]} + Elements(s[1..]);
      assert s[0] !in Elements(s[1..]) by {
        forall i | 0 <= i < |s[1..]| ensures s[1..][i] != s[0] {
          assert s[1..][i] == s[i + 1];
        }
      }
    }
  }

  /** A permutation of `0 .. n-1` mentions every index: `n` distinct values
      below `n` leave no value out. */
  lemma PermutationCovers(order: seq<nat>, n: nat)
    requires IsPermutation(order, n)
    ensures forall k :: 0 <= k < n ==> k in order
  {
    RangeSize(n);
    RangeMembers(n);
    DistinctElements(order);
    var e, r := Elements(order), Range(n);
    assert e <= r;
    assert r * e == e;
    var missing := r - e;
    assert |missing| == 0;
    assert r == e + missing;
    forall k | 0 <= k < n ensures k in order {
      assert k in r;
    }
  }

  /** The entries of `xs` at the positions `order` lists, in that order. */
  function Pick<T>(xs: seq<T>, order: seq<nat>): (ys: seq<T>)
    requires forall i :: 0 <= i < |order| ==> order[i] < |xs|
    ensures |ys| == |order|
    ensures forall i :: 0 <= i < |order| ==> ys[i] == xs[order[i]]
  {
    seq(|order|, i requires 0 <= i < |order| => xs[order[i]])
  }

  /** `order` without position `p`. */
  function Without(order: seq<nat>, p: nat): seq<nat>
    requires p < |order|
  {
    order[..p] + order[p + 1..]
  }

  /** Removing the position that holds the largest index leaves a
      permutation of the smaller indices. */
  lemma WithoutLargest(order: seq<nat>, n: nat, p: nat)
    requires n > 0 && IsPermutation(order, n) && p < n && order[p] == n - 1
    ensures IsPermutation(Without(order, p), n - 1)
    ensures forall i :: 0 <= i < n - 1 ==> Without(order, p)[i] == order[if i < p then i else i + 1]
  {
    var rest := Without(order, p);
    assert forall i :: 0 <= i < |rest| ==> rest[i] == order[if i < p then i else i + 1];
    forall i | 0 <= i < n - 1 ensures rest[i] < n - 1 {
      var k := if i < p then i else i + 1;
      assert rest[i] == order[k] && k != p;
    }
    forall i, j | 0 <= i < j < n - 1 ensures rest[i] != rest[j] {
      var i', j' := if i < p then i else i + 1, if j < p then j else j + 1;
      assert rest[i] == order[i'] && rest[j] == order[j'] && i' < j';
    }
  }

  /** Reading `xs` through a permutation of its positions loses and repeats
      nothing: the result holds every entry as often as `xs` does. Proof:
      take out the position holding the last index; what is left reads the
      shorter list through a shorter permutation. */
  lemma {:induction false} PickPermutation<T>(xs: seq<T>, order: seq<nat>)
    requires IsPermutation(order, |xs|)
    ensures multiset(Pick(xs, order)) == multiset(xs)
    decreases |xs|
  {
    var n := |xs|;
    if n > 0 {
      var p := LargestPosition(order, n);
      WithoutLargest(order, n, p);
      PickPermutation(xs[..n - 1], Without(order, p));
      PickWithout(xs, order, p);
      MultisetWithout(Pick(xs, order), p, xs);
    }
  }

  /** Where a permutation of `0 .. n-1` puts the largest index. */
  lemma LargestPosition(order: seq<nat>, n: nat) returns (p: nat)
    requires n > 0 && IsPermutation(order, n)
    ensures p < n && order[p] == n - 1
  {
    PermutationCovers(order, n);
    assert n - 1 in order;
    p :| 0 <= p < n && order[p] == n - 1;
  }

  /** Two lists that agree as multisets once position `p` of the first and
      the last entry of the second are taken out, and agree on those two
      entries, agree as multisets. */
  lemma MultisetWithout<T>(ys: seq<T>, p: nat, xs: seq<T>)
    requires p < |ys| && |xs| > 0 && ys[p] == xs[|xs| - 1]
    requires multiset(ys[..p] + ys[p + 1..]) == multiset(xs[..|xs| - 1])
    ensures multiset(ys) == multiset(xs)
  {
    assert ys == ys[..p] + [ys[p]] + ys[p + 1..];
    assert xs == xs[..|xs| - 1] + [xs[|xs| - 1]];
  }

  /** Reading the shorter list through the shorter permutation gives the
      longer reading with position `p` taken out. */
  lemma PickWithout<T>(xs: seq<T>, order: seq<nat>, p: nat)
    requires |xs| > 0 && IsPermutation(order, |xs|) && p < |xs| && order[p] == |xs| - 1
    requires IsPermutation(Without(order, p), |xs| - 1)
    requires forall i :: 0 <= i < |xs| - 1 ==> Without(order, p)[i] == order[if i < p then i else i + 1]
    ensures Pick(xs[..|xs| - 1], Without(order, p)) == Pick(xs, order)[..p] + Pick(xs, order)[p + 1..]
  {
  }

  /** `xs` rearranged: position `i` holds `xs[order[i]]`, and every entry
      occurs as often as in `xs`. */
  function Shuffle<T(!new)>(xs: seq<T>, order: seq<nat>): (ys: seq<T>)
    requires IsPermutation(order, |xs|)
    ensures |ys| == |xs|
    ensures forall i :: 0 <= i < |ys| ==> ys[i] == xs[order[i]]
    ensures multiset(ys) == multiset(xs)
    ensures forall x :: x in ys <==> x in xs
    ensures Distinct(xs) ==> Distinct(ys)
  {
    PickPermutation(xs, order);
    var ys := Pick(xs, order);
    assert forall x :: x in ys <==> x in multiset(ys);
    assert forall x :: x in xs <==> x in multiset(xs);
    ys
  }

  /** The first `k` entries of `xs` rearranged by `order`: `random.shuffle`
      followed by the slice `[:k]`. */
  function ShuffledPrefix<T(!new)>(xs: seq<T>, order: seq<nat>, k: nat): (ys: seq<T>)
    requires IsPermutation(order, |xs|) && k <= |xs|
    ensures |ys| == k
    ensures forall i :: 0 <= i < k ==> ys[i] == xs[order[i]]
    ensures forall i :: 0 <= i < k ==> ys[i] in xs
    ensures Distinct(xs) ==> Distinct(ys)
    ensures k == |xs| ==> multiset(ys) == multiset(xs)
  {
    var shuffled := Shuffle(xs, order);
    assert forall i :: 0 <= i < k ==> shuffled[i] in xs by {
      forall i | 0 <= i < k ensures shuffled[i] in xs {
        assert shuffled[i] in shuffled;
      }
    }
    if k == |xs| then
      assert shuffled[..k] == shuffled;
      shuffled
    else
      shuffled[..k]
  }
}
