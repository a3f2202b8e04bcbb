/** Orders on similarity scores. A ranking of `n` scores is a list of the
    indices `0..n-1`, each once, in non-increasing score order; that is what
    `np.argsort(similarities)[::-1]` returns, with ties in an unspecified
    order. A stable ranking also keeps tied indices in ascending order, which
    is what Python's `list.sort(key=..., reverse=True)` does. Similarities
    are abstract ordered scores. */
module Ranking {

  type Score = real

  /** An embedding: a vector of similarity-comparable components. */
  type Vector = seq<real>

  /** Every entry of `order` indexes `scores`. */
  predicate Indexes(scores: seq<Score>, order: seq<nat>)
  {
    forall i :: 0 <= i < |order| ==> order[i] < |scores|
  }

  /** `order` lists each of `0..n-1` exactly once. */
  predicate IsIndexPermutation(order: seq<nat>, n: nat)
  {
    && |order| == n
    && (forall i :: 0 <= i < |order| ==> order[i] < n)
    && (forall i, j :: 0 <= i < j < |order| ==> order[i] != order[j])
  }

  /** Scores read along `order` never increase. */
  predicate NonIncreasing(scores: seq<Score>, order: seq<nat>)
    requires Indexes(scores, order)
  {
    forall i, j :: 0 <= i < j < |order| ==> scores[order[i]] >= scores[order[j]]
  }

  /** A descending argsort of `scores`, ties in any order. */
  predicate IsRanking(scores: seq<Score>, order: seq<nat>)
  {
    IsIndexPermutation(order, |scores|) && NonIncreasing(scores, order)
  }

  /** `a` comes before `b` in the stable descending order. */
  predicate Before(scores: seq<Score>, a: nat, b: nat)
    requires a < |scores| && b < |scores|
  {
    scores[a] > scores[b] || (scores[a] == scores[b] && a < b)
  }

  predicate StablyOrdered(scores: seq<Score>, order: seq<nat>)
  {
    Indexes(scores, order) &&
    forall i, j :: 0 <= i < j < |order| ==> Before(scores, order[i], order[j])
  }

  function Insert(scores: seq<Score>, sorted: seq<nat>, k: nat): (r: seq<nat>)
    requires k < |scores| && k !in sorted
    requires StablyOrdered(scores, sorted)
    ensures |r| == |sorted| + 1
    ensures forall x :: x in r <==> x == k || x in sorted
    ensures StablyOrdered(scores, r)
  {
    if sorted == [] then [k]
    else if Before(scores, k, sorted[0]) then
      assert forall j :: 0 < j < |sorted| ==> Before(scores, sorted[0], sorted[j]);
      [k] + sorted
    else
      var rest := Insert(scores, sorted[1..], k);
      assert forall x :: x in sorted[1..] ==> Before(scores, sorted[0], x) by {
        forall x | x in sorted[1..] ensures Before(scores, sorted[0], x) {
          var j :| 0 <= j < |sorted[1..]| && sorted[1..][j] == x;
          assert sorted[j + 1] == x;
        }
      }
      assert Before(scores, sorted[0], k);
      var r := [sorted[0]] + rest;
      assert forall j :: 0 < j < |r| ==> r[j] == rest[j - 1] && r[j] in rest;
      r
  }

  /** Stable descending argsort of the first `n` scores. */
  function StableRankingOf(scores: seq<Score>, n: nat): (r: seq<nat>)
    requires n <= |scores|
    ensures |r| == n
    ensures forall x: nat :: x in r <==> x < n
    ensures StablyOrdered(scores, r)
  {
    if n == 0 then [] else Insert(scores, StableRankingOf(scores, n - 1), n - 1)
  }

  /** Stable descending argsort of all scores. */
  function StableRanking(scores: seq<Score>): (r: seq<nat>)
    ensures IsRanking(scores, r)
    ensures StablyOrdered(scores, r)
  {
    var r := StableRankingOf(scores, |scores|);
    assert forall i :: 0 <= i < |r| ==> r[i] in r;
    r
  }

  /** The stable ranking is the only stable ordering of all indices: ties
      break by fetch position, never arbitrarily. */
  lemma {:induction false} StableRankingUnique(scores: seq<Score>, a: seq<nat>, b: seq<nat>)
    requires StablyOrdered(scores, a) && StablyOrdered(scores, b)
    requires forall x :: x in a <==> x in b
    ensures a == b
    decreases |a|
  {
    if a == [] {
      HeadIsMember(b);
    } else {
      assert a[0] in b;
      assert b[0] in b;
      var i :| 0 <= i < |a| && a[i] == b[0];
      var j :| 0 <= j < |b| && b[j] == a[0];
      assert a[0] == b[0];
      forall x ensures x in a[1..] <==> x in b[1..] {
        if x in a[1..] {
          var i :| 1 <= i < |a| && a[i] == x;
          assert Before(scores, a[0], x);
          assert x in b && x != b[0];
          var j :| 0 <= j < |b| && b[j] == x;
          assert j != 0;
        }
        if x in b[1..] {
          var j :| 1 <= j < |b| && b[j] == x;
          assert Before(scores, b[0], x);
          assert x in a && x != a[0];
          var i :| 0 <= i < |a| && a[i] == x;
          assert i != 0;
        }
      }
      StableRankingUnique(scores, a[1..], b[1..]);
      assert a == [a[0]] + a[1..] && b == [b[0]] + b[1..];
    }
  }

  lemma HeadIsMember(s: seq<nat>)
    ensures s != [] ==> s[0] in s
  {
  }

  /** Cutting a ranking after `k` entries keeps the best: every index
      kept scores at least as high as every index of `scores` cut off. */
  lemma TopKAreBest(scores: seq<Score>, order: seq<nat>, k: nat, x: nat, y: nat)
    requires IsRanking(scores, order)
    requires k <= |order| && x in order[..k] && y < |scores| && y !in order[..k]
    ensures scores[x] >= scores[y]
  {
    PermutationCovers(order, |scores|, y);
    var j :| 0 <= j < |order| && order[j] == y;
    var i :| 0 <= i < k && order[..k][i] == x;
    assert forall t :: 0 <= t < k ==> order[..k][t] == order[t];
    assert i < j;
  }

  /** The entries of `s`, as a set. */
  function Listed(s: seq<nat>): set<nat>
  {
    set i | 0 <= i < |s| :: s[i]
  }

  /** An index permutation of `0..n-1` lists every one of them: it lists
      `n` distinct indexes, all below `n`. */
  lemma PermutationCovers(order: seq<nat>, n: nat, y: nat)
    requires IsIndexPermutation(order, n) && y < n
    ensures y in order
  {
    var range := Below(n);
    DistinctCard(order);
    BelowCard(n);
    assert y in range;
    assert Listed(order) - {y} <= range - {y};
    SubsetCard(Listed(order) - {y}, range - {y});
    assert y in Listed(order);
  }

  lemma {:induction false} DistinctCard(s: seq<nat>)
    requires forall i, j :: 0 <= i < j < |s| ==> s[i] != s[j]
    ensures |Listed(s)| == |s|
  {
    if s != [] {
      var front := s[..|s| - 1];
      DistinctCard(front);
      assert Listed(s) == Listed(front) + {s[|s| - 1]};
      assert s[|s| - 1] !in Listed(front);
    }
  }

  /** The indexes `0..n-1`. */
  function Below(n: nat): (r: set<nat>)
    ensures forall i: nat :: i in r <==> i < n
  {
    if n == 0 then {} else Below(n - 1) + {n - 1}
  }

  lemma {:induction false} BelowCard(n: nat)
    ensures |Below(n)| == n
  {
    if n > 0 {
      var below := Below(n - 1);
      BelowCard(n - 1);
      assert n - 1 !in below;
      assert Below(n) == below + {n - 1};
      assert |below + {n - 1}| == |below| + 1;
    }
  }

  lemma {:induction false} SubsetCard(a: set<nat>, b: set<nat>)
    requires a <= b
    ensures |a| <= |b|
    decreases b
  {
    if b != {} {
      var z :| z in b;
      SubsetCard(a - {z}, b - {z});
    }
  }
}
