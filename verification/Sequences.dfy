/** Small facts about lists that several modules need. */
module Sequences {
  ghost predicate NoDuplicates<T>(s: seq<T>) {
    forall i, j :: 0 <= i < j < |s| ==> s[i] != s[j]
  }

  function Without<T>(s: seq<T>, i: nat): (r: seq<T>)
    requires i < |s|
    ensures |r| == |s| - 1
  {
    s[..i] + s[i + 1..]
  }

  /** A duplicate-free list of members of S is at most as long as S is big. */
  lemma {:induction false} DistinctBound<T>(s: seq<T>, S: set<T>)
    requires NoDuplicates(s) && forall i :: 0 <= i < |s| ==> s[i] in S
    ensures |s| <= |S|
  {
    if s != [] {
      var k := |s| - 1;
      DistinctBound(s[..k], S - {s[k]});
    }
  }

  function Below(n: nat): (b: set<int>)
    ensures forall i :: i in b <==> 0 <= i < n
    ensures |b| == n
  {
    if n == 0 then {} else Below(n - 1) + {n - 1}
  }

  /** A duplicate-free list of numbers below n is at most n long. */
  lemma Pigeonhole(s: seq<nat>, n: nat)
    requires NoDuplicates(s) && forall i :: 0 <= i < |s| ==> s[i] < n
    ensures |s| <= n
  {
    DistinctBound<int>(s, Below(n));
  }

  lemma SubsetSize<T>(a: set<T>, b: set<T>)
    requires a <= b
    ensures |a| <= |b|
  {
    assert b == a + (b - a);
  }

  /** i taken round a ring of n places, for i less than two turns. */
  function Wrap(n: nat, i: nat): (w: nat)
    requires i < 2 * n
    ensures w < n
  {
    if i < n then i else i - n
  }

  lemma WrapIsModulo(n: nat, i: nat)
    requires i < 2 * n
    ensures Wrap(n, i) == i % n
  {
    if n <= i {
      assert i == n + (i - n);
      assert i / n == 1 by {
        assert i % n == i - n * (i / n);
      }
    }
  }

  /** Taking one entry out of a duplicate-free list removes exactly that member. */
  lemma WithoutMembers<T>(s: seq<T>, i: nat)
    requires i < |s| && NoDuplicates(s)
    ensures NoDuplicates(Without(s, i))
    ensures forall x :: x in Without(s, i) <==> x in s && x != s[i]
  {
    var r := Without(s, i);
    forall x | x in s && x != s[i]
      ensures x in r
    {
      var k :| 0 <= k < |s| && s[k] == x;
      assert r[if k < i then k else k - 1] == x;
    }
  }
}
