// Orderings of array positions by score, as the agents use numpy's
// `argsort`, `argpartition` and `argmax`: a ranking of the positions by
// non-increasing score (equal scores in position order) and the first
// position of a maximum.
module Ranking {
  import opened Basics

  /** The positions `0..n-1`, in order. */
  function Positions(n: nat): (r: seq<nat>)
    ensures |r| == n && forall i :: 0 <= i < n ==> r[i] == i
  {
    if n == 0 then [] else Positions(n - 1) + [n - 1]
  }

  /** Every element of `r` is a position of `scores`. */
  predicate InRange(r: seq<nat>, n: nat)
  {
    forall i :: 0 <= i < |r| ==> r[i] < n
  }

  /** The positions in `r` have non-increasing scores. */
  predicate NonIncreasing(scores: seq<real>, r: seq<nat>)
    requires InRange(r, |scores|)
  {
    forall i, j :: 0 <= i < j < |r| ==> scores[r[i]] >= scores[r[j]]
  }

  /** Inserts `p` after every position whose score is at least its own. */
  function Insert(scores: seq<real>, p: nat, ranked: seq<nat>): (r: seq<nat>)
    requires p < |scores| && InRange(ranked, |scores|)
    ensures InRange(r, |scores|) && |r| == |ranked| + 1
  {
    if ranked == [] then [p]
    else if scores[ranked[0]] >= scores[p] then [ranked[0]] + Insert(scores, p, ranked[1..])
    else [p] + ranked
  }

  /** Inserting adds `p` and keeps every ranked position. */
  lemma {:induction false} InsertPermutes(scores: seq<real>, p: nat, ranked: seq<nat>)
    requires p < |scores| && InRange(ranked, |scores|)
    ensures multiset(Insert(scores, p, ranked)) == multiset(ranked) + multiset{p}
  {
    if ranked != [] {
      assert ranked == [ranked[0]] + ranked[1..];
      if scores[ranked[0]] >= scores[p] {
        InsertPermutes(scores, p, ranked[1..]);
      }
    }
  }

  lemma {:induction false} InsertKeepsOrder(scores: seq<real>, p: nat, ranked: seq<nat>)
    requires p < |scores| && InRange(ranked, |scores|) && NonIncreasing(scores, ranked)
    ensures NonIncreasing(scores, Insert(scores, p, ranked))
  {
    if ranked == [] {
    } else if scores[ranked[0]] >= scores[p] {
      var rest := ranked[1..];
      InsertKeepsOrder(scores, p, rest);
      forall k | 0 <= k < |rest|
        ensures scores[rest[k]] <= scores[ranked[0]]
      {
        assert rest[k] == ranked[k + 1];
      }
      InsertBelow(scores, p, rest, scores[ranked[0]]);
      HeadThenSorted(scores, ranked[0], Insert(scores, p, rest));
    } else {
      HeadThenSorted(scores, p, ranked);
    }
  }

  /** Inserting `p` among positions scoring at most `bound` gives positions scoring at most `bound`, when `p` does too. */
  lemma {:induction false} InsertBelow(scores: seq<real>, p: nat, ranked: seq<nat>, bound: real)
    requires p < |scores| && InRange(ranked, |scores|) && scores[p] <= bound
    requires forall k :: 0 <= k < |ranked| ==> scores[ranked[k]] <= bound
    ensures forall k :: 0 <= k < |ranked| + 1 ==> scores[Insert(scores, p, ranked)[k]] <= bound
  {
    if ranked != [] && scores[ranked[0]] >= scores[p] {
      var rest := ranked[1..];
      assert forall k :: 0 <= k < |rest| ==> rest[k] == ranked[k + 1];
      InsertBelow(scores, p, rest, bound);
    }
  }

  /** A position scoring at least every position of a sorted sequence, put in front of it, keeps it sorted. */
  lemma {:induction false} HeadThenSorted(scores: seq<real>, h: nat, tail: seq<nat>)
    requires h < |scores| && InRange(tail, |scores|) && NonIncreasing(scores, tail)
    requires forall k :: 0 <= k < |tail| ==> scores[tail[k]] <= scores[h]
    ensures InRange([h] + tail, |scores|) && NonIncreasing(scores, [h] + tail)
  {
    var r := [h] + tail;
    forall i, j | 0 <= i < j < |r|
      ensures scores[r[i]] >= scores[r[j]]
    {
      assert r[j] == tail[j - 1];
      if i > 0 {
        assert r[i] == tail[i - 1];
      }
    }
  }

  /** The positions `0..n-1` ranked by non-increasing score; equal scores stay in position order. */
  function RankPrefix(scores: seq<real>, n: nat): (r: seq<nat>)
    requires n <= |scores|
    ensures InRange(r, |scores|) && |r| == n
  {
    if n == 0 then [] else Insert(scores, n - 1, RankPrefix(scores, n - 1))
  }

  /** The first `n` positions ranked are a permutation of `0..n-1`. */
  lemma {:induction false} RankPrefixPermutes(scores: seq<real>, n: nat)
    requires n <= |scores|
    ensures multiset(RankPrefix(scores, n)) == multiset(Positions(n))
  {
    if n > 0 {
      RankPrefixPermutes(scores, n - 1);
      RankPrefixStep(scores, n);
    }
  }

  /** Ranking one more position adds it to the positions ranked. */
  lemma {:induction false} RankPrefixStep(scores: seq<real>, n: nat)
    requires 0 < n <= |scores|
    requires multiset(RankPrefix(scores, n - 1)) == multiset(Positions(n - 1))
    ensures multiset(RankPrefix(scores, n)) == multiset(Positions(n))
  {
    InsertPermutes(scores, n - 1, RankPrefix(scores, n - 1));
    PositionsGrow(n);
  }

  /** The positions `0..n-1` are those below `n - 1`, and `n - 1`. */
  lemma {:induction false} PositionsGrow(n: nat)
    requires n > 0
    ensures var last: nat := n - 1; multiset(Positions(n)) == multiset(Positions(n - 1)) + multiset{last}
  {
    assert Positions(n) == Positions(n - 1) + [n - 1];
  }

  /** All positions ranked by non-increasing score (a stable descending argsort). */
  function Rank(scores: seq<real>): (r: seq<nat>)
    ensures InRange(r, |scores|) && |r| == |scores|
  {
    RankPrefix(scores, |scores|)
  }

  lemma {:induction false} RankPrefixSorted(scores: seq<real>, n: nat)
    requires n <= |scores|
    ensures NonIncreasing(scores, RankPrefix(scores, n))
  {
    if n > 0 {
      RankPrefixSorted(scores, n - 1);
      InsertKeepsOrder(scores, n - 1, RankPrefix(scores, n - 1));
    }
  }

  /** A sequence with the multiset of `0..n-1` holds each position exactly once. */
  lemma {:induction false} PermutationOfPositions(r: seq<nat>, n: nat)
    requires multiset(r) == multiset(Positions(n))
    ensures |r| == n && Distinct(r) && InRange(r, n)
    ensures forall p: nat :: p < n ==> p in r
  {
    assert |r| == |multiset(r)| == |multiset(Positions(n))| == n;
    forall i | 0 <= i < |r|
      ensures r[i] < n
    {
      assert r[i] in multiset(r);
      assert r[i] in multiset(Positions(n));
    }
    forall p: nat | p < n
      ensures p in r
    {
      assert Positions(n)[p] == p;
      assert p in multiset(Positions(n));
    }
    forall i, j | 0 <= i < j < |r|
      ensures r[i] != r[j]
    {
      if r[i] == r[j] {
        PositionsOnce(n, r[i]);
        TwiceInMultiset(r, i, j);
      }
    }
  }

  lemma {:induction false} PositionsOnce(n: nat, p: nat)
    ensures multiset(Positions(n))[p] <= 1
  {
    if n > 0 {
      PositionsOnce(n - 1, p);
      assert Positions(n) == Positions(n - 1) + [n - 1];
      if p == n - 1 {
        assert p !in multiset(Positions(n - 1));
      }
    }
  }

  lemma {:induction false} TwiceInMultiset(r: seq<nat>, i: nat, j: nat)
    requires i < j < |r| && r[i] == r[j]
    ensures multiset(r)[r[i]] >= 2
  {
    assert r == r[..i] + [r[i]] + r[i + 1..j] + [r[j]] + r[j + 1..];
  }

  /**
   * The ranking: every position exactly once, by non-increasing score; so
   * every position in a prefix scores at least as much as every position
   * after it.
   */
  lemma {:induction false} RankIsSortedPermutation(scores: seq<real>)
    ensures |Rank(scores)| == |scores| && Distinct(Rank(scores)) && InRange(Rank(scores), |scores|)
    ensures forall p: nat :: p < |scores| ==> p in Rank(scores)
    ensures NonIncreasing(scores, Rank(scores))
  {
    RankPrefixPermutes(scores, |scores|);
    PermutationOfPositions(Rank(scores), |scores|);
    RankPrefixSorted(scores, |scores|);
  }

  /**
   * The first `k` ranked positions: `k` distinct positions, by non-increasing
   * score, each scoring at least as much as every position left out.
   */
  lemma {:induction false} TopPositions(scores: seq<real>, k: nat)
    requires k <= |scores|
    ensures |Rank(scores)[..k]| == k && Distinct(Rank(scores)[..k]) && InRange(Rank(scores)[..k], |scores|)
    ensures NonIncreasing(scores, Rank(scores)[..k])
    ensures forall p, q: nat :: p in Rank(scores)[..k] && q < |scores| && q !in Rank(scores)[..k] ==> scores[p] >= scores[q]
  {
    var r := Rank(scores);
    RankIsSortedPermutation(scores);
    forall p, q: nat | p in r[..k] && q < |scores| && q !in r[..k]
      ensures scores[p] >= scores[q]
    {
      var i :| 0 <= i < k && r[..k][i] == p;
      assert q in r;
      var j :| 0 <= j < |r| && r[j] == q;
    }
  }

  /**
   * `np.argsort(scores)[::-1]`: the positions from the highest score to the
   * lowest, equal scores the later position first (a stable ascending sort,
   * read backwards).
   */
  function ReversedArgsort(scores: seq<real>): (r: seq<nat>)
    ensures |r| == |scores| && InRange(r, |scores|)
  {
    var ranked := Rank(Reversed(scores));
    seq(|scores|, i requires 0 <= i < |scores| => |scores| - 1 - ranked[i])
  }

  /** The reversed argsort holds every position exactly once, by non-increasing score. */
  lemma {:induction false} ReversedArgsortIsSortedPermutation(scores: seq<real>)
    ensures Distinct(ReversedArgsort(scores))
    ensures forall p: nat :: p < |scores| ==> p in ReversedArgsort(scores)
    ensures NonIncreasing(scores, ReversedArgsort(scores))
  {
    var n := |scores|;
    var backwards := Reversed(scores);
    var ranked := Rank(backwards);
    var r := ReversedArgsort(scores);
    RankIsSortedPermutation(backwards);
    forall i, j | 0 <= i < j < n
      ensures r[i] != r[j] && scores[r[i]] >= scores[r[j]]
    {
      ReversedArgsortAt(scores, i);
      ReversedArgsortAt(scores, j);
      assert ranked[i] != ranked[j];
    }
    forall p: nat | p < n
      ensures p in r
    {
      MirroredIn(ranked, n, p);
    }
  }

  /** The `i`-th reversed-argsort position mirrors the `i`-th ranked position of the reversed scores. */
  lemma {:induction false} ReversedArgsortAt(scores: seq<real>, i: nat)
    requires i < |scores|
    ensures var ranked := Rank(Reversed(scores));
      && ranked[i] < |scores|
      && ReversedArgsort(scores)[i] == |scores| - 1 - ranked[i]
      && scores[ReversedArgsort(scores)[i]] == Reversed(scores)[ranked[i]]
  {
    var n := |scores|;
    var backwards := Reversed(scores);
    var ranked := Rank(backwards);
    assert ranked[i] < n;
    var j := n - 1 - ranked[i];
    assert ReversedArgsort(scores)[i] == j;
    assert backwards[n - 1 - j] == scores[j];
  }

  /** A position `p` is in the mirrored ranking when `n - 1 - p` is in the ranking. */
  lemma {:induction false} MirroredIn(ranked: seq<nat>, n: nat, p: nat)
    requires |ranked| == n && InRange(ranked, n) && p < n && n - 1 - p in ranked
    ensures p in seq(n, i requires 0 <= i < n => n - 1 - ranked[i])
  {
    var j :| 0 <= j < n && ranked[j] == n - 1 - p;
    assert seq(n, i requires 0 <= i < n => n - 1 - ranked[i])[j] == p;
  }

  /** `np.argmax` / Python's `max` with a key: the first position of a maximal score. */
  function FirstMax(scores: seq<real>): (i: nat)
    requires |scores| > 0
    ensures i < |scores|
    ensures forall j :: 0 <= j < |scores| ==> scores[j] <= scores[i]
    ensures forall j :: 0 <= j < i ==> scores[j] < scores[i]
  {
    if |scores| == 1 then 0
    else
      var i := FirstMax(scores[..|scores| - 1]);
      if scores[|scores| - 1] > scores[i] then |scores| - 1 else i
  }

  /** One more score: the first maximum moves to it exactly when it beats the maximum so far. */
  lemma {:induction false} FirstMaxStep(scores: seq<real>, i: nat)
    requires 0 < i < |scores|
    ensures FirstMax(scores[..i + 1]) == if scores[i] > scores[FirstMax(scores[..i])] then i else FirstMax(scores[..i])
  {
    assert scores[..i + 1][..i] == scores[..i];
  }
}
