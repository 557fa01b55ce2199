/**
 * Order-preserving filtering, as JavaScript's `Array.prototype.filter`,
 * and the facts about it that ordinal selection relies on.
 */
module Seqs {

  /** The elements of `s` that satisfy `p`, in their original order. */
  function Filter<T>(s: seq<T>, p: T -> bool): (r: seq<T>)
    ensures |r| == Count(s, p) <= |s|
    ensures forall k :: 0 <= k < |r| ==> r[k] in s && p(r[k])
    ensures forall k :: 0 <= k < |s| && p(s[k]) ==> s[k] in r
  {
    if s == [] then [] else (if p(s[0]) then [s[0]] else []) + Filter(s[1..], p)
  }

  /** How many elements of `s` satisfy `p`. */
  function Count<T>(s: seq<T>, p: T -> bool): (n: nat)
    ensures n <= |s|
  {
    if s == [] then 0 else (if p(s[0]) then 1 else 0) + Count(s[1..], p)
  }

  /**
   * The position of the `n`-th element of `s` (counting from 1) that
   * satisfies `p`: a match with exactly `n - 1` matches before it.
   */
  function NthIndex<T>(s: seq<T>, p: T -> bool, n: nat): (i: nat)
    requires 1 <= n <= Count(s, p)
    ensures i < |s| && p(s[i]) && Count(s[..i], p) == n - 1
  {
    if p(s[0]) && n == 1 then
      assert s[..0] == [];
      0
    else
      var i' := NthIndex(s[1..], p, if p(s[0]) then n - 1 else n);
      assert s[..i' + 1][1..] == s[1..][..i'];
      i' + 1
  }

  /** `s` without any occurrence of `x` (the `filter(i => i !== x)` of a removal). */
  function RemoveAll<T(==)>(s: seq<T>, x: T): (r: seq<T>)
    ensures x !in r
    ensures forall k :: 0 <= k < |r| ==> r[k] in s
    ensures forall k :: 0 <= k < |s| && s[k] != x ==> s[k] in r
  {
    Filter(s, y => y != x)
  }

  lemma {:induction false} CountAppend<T>(a: seq<T>, b: seq<T>, p: T -> bool)
    ensures Count(a + b, p) == Count(a, p) + Count(b, p)
  {
    if a == [] {
      assert a + b == b;
    } else {
      assert (a + b)[1..] == a[1..] + b;
      CountAppend(a[1..], b, p);
    }
  }

  /** Each element that satisfies `p` sits in the filtered sequence at the number of matches before it. */
  lemma {:induction false} FilterAt<T>(s: seq<T>, p: T -> bool, i: nat)
    requires i < |s| && p(s[i])
    ensures Count(s[..i], p) < |Filter(s, p)|
    ensures Filter(s, p)[Count(s[..i], p)] == s[i]
  {
    if i > 0 {
      assert s[..i][1..] == s[1..][..i - 1];
      FilterAt(s[1..], p, i - 1);
    }
  }

  /** The `n`-th match is the element at position `n - 1` of the filtered sequence. */
  lemma NthMatchIsFiltered<T>(s: seq<T>, p: T -> bool, n: nat)
    requires 1 <= n <= Count(s, p)
    ensures Filter(s, p)[n - 1] == s[NthIndex(s, p, n)]
  {
    FilterAt(s, p, NthIndex(s, p, n));
  }

  /** Filtering with a weaker test keeps at least as many elements. */
  lemma {:induction false} FilterWeaker<T>(s: seq<T>, p: T -> bool, q: T -> bool)
    requires forall k :: 0 <= k < |s| && p(s[k]) ==> q(s[k])
    ensures |Filter(s, p)| <= |Filter(s, q)|
  {
    if s != [] {
      FilterWeaker(s[1..], p, q);
    }
  }
}
