/** The contract of std::sort: some permutation that is ordered by `less`, ties in any order. */
module Sorting {

  ghost predicate StrictWeakOrder<T(!new)>(less: (T, T) -> bool) {
    && (forall x :: !less(x, x))
    && (forall x, y, z :: less(x, y) && less(y, z) ==> less(x, z))
    && (forall x, y, z :: less(x, y) ==> less(x, z) || less(z, y))
  }

  ghost predicate Ordered<T>(s: seq<T>, less: (T, T) -> bool) {
    forall i, j | 0 <= i < j < |s| :: !less(s[j], s[i])
  }

  method Sort<T(!new)>(s: seq<T>, less: (T, T) -> bool) returns (r: seq<T>)
    requires StrictWeakOrder(less)
    ensures multiset(r) == multiset(s) && |r| == |s|
    ensures Ordered(r, less)
  {
    r := [];
    for n := 0 to |s|
      invariant |r| == n && multiset(r) == multiset(s[..n])
      invariant Ordered(r, less)
    {
      var k := n;
      while k > 0 && less(s[n], r[k - 1])
        invariant 0 <= k <= n
        invariant forall i | k <= i < n :: less(s[n], r[i])
      {
        k := k - 1;
      }
      Insert(r, k, s[n], less);
      assert s[..n + 1] == s[..n] + [s[n]];
      assert r == r[..k] + r[k..];
      r := r[..k] + [s[n]] + r[k..];
    }
    assert s[..|s|] == s;
  }

  lemma Insert<T(!new)>(r: seq<T>, k: nat, x: T, less: (T, T) -> bool)
    requires StrictWeakOrder(less) && Ordered(r, less) && k <= |r|
    requires k > 0 ==> !less(x, r[k - 1])
    requires forall i | k <= i < |r| :: less(x, r[i])
    ensures Ordered(r[..k] + [x] + r[k..], less)
  {
  }

  /** A permutation takes every element of the input to some index, and distinct elements stay distinct. */
  lemma PermutationKeeps<T>(s: seq<T>, r: seq<T>)
    requires multiset(r) == multiset(s)
    ensures |r| == |s|
    ensures forall x :: x in s <==> x in r
    ensures (forall i, j | 0 <= i < j < |s| :: s[i] != s[j]) ==> (forall i, j | 0 <= i < j < |r| :: r[i] != r[j])
  {
    assert |multiset(r)| == |r| && |multiset(s)| == |s|;
    forall x
      ensures x in s <==> x in r
    {
      assert x in s <==> x in multiset(s);
      assert x in r <==> x in multiset(r);
    }
    if forall i, j | 0 <= i < j < |s| :: s[i] != s[j] {
      forall i, j | 0 <= i < j < |r|
        ensures r[i] != r[j]
      {
        if r[i] == r[j] {
          CountTwice(r, i, j);
          CountOnce(s, r[i]);
        }
      }
    }
  }

  lemma CountTwice<T>(r: seq<T>, i: nat, j: nat)
    requires i < j < |r| && r[i] == r[j]
    ensures multiset(r)[r[i]] >= 2
  {
    assert r == r[..j] + [r[j]] + r[j + 1..];
    assert r[i] in r[..j];
  }

  lemma {:induction false} CountOnce<T>(s: seq<T>, x: T)
    requires forall i, j | 0 <= i < j < |s| :: s[i] != s[j]
    ensures multiset(s)[x] <= 1
    decreases |s|
  {
    if s != [] {
      var n := |s| - 1;
      assert s == s[..n] + [s[n]];
      CountOnce(s[..n], x);
      if x == s[n] {
        assert x !in s[..n];
      }
    }
  }

  ghost predicate Increasing<T(!new)>(s: seq<T>, less: (T, T) -> bool) {
    forall i, j | 0 <= i < j < |s| :: less(s[i], s[j])
  }

  lemma LastIsSame<T(!new)>(s: seq<T>, r: seq<T>, less: (T, T) -> bool)
    requires s != [] && Increasing(s, less) && multiset(r) == multiset(s) && Ordered(r, less)
    ensures |r| == |s| && r[|s| - 1] == s[|s| - 1]
  {
    PermutationKeeps(s, r);
    var n := |s| - 1;
    assert s[n] in r && r[n] in s;
    var k :| 0 <= k < |r| && r[k] == s[n];
    assert k < n ==> !less(r[n], r[k]);
  }

  lemma DropLast<T>(s: seq<T>)
    requires s != []
    ensures multiset(s[..|s| - 1]) == multiset(s) - multiset{s[|s| - 1]} && s == s[..|s| - 1] + [s[|s| - 1]]
  {
    assert s == s[..|s| - 1] + [s[|s| - 1]];
  }

  /** Of elements that all differ in the order there is only one sorted permutation. */
  lemma {:induction false} OnlyOneOrder<T(!new)>(s: seq<T>, r: seq<T>, less: (T, T) -> bool)
    requires Increasing(s, less) && multiset(r) == multiset(s) && Ordered(r, less)
    ensures r == s
    decreases |s|
  {
    if s == [] {
      PermutationKeeps(s, r);
    } else {
      LastIsSame(s, r, less);
      DropLast(s);
      DropLast(r);
      OnlyOneOrder(s[..|s| - 1], r[..|r| - 1], less);
    }
  }
}
