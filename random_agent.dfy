// The random agent of recsim/agents/random_agent.py: an episodic agent that
// recommends the first `slate_size` document positions of a fresh shuffle
// of all positions, drawn from the agent's own numpy generator.
//
// The shuffle is numpy's: for i from n-1 down to 1 it exchanges position i
// with `random_interval(i)`, a position in [0, i] drawn from the generator.
// The values of those draws come from an Intervals function of the
// generator's seed and position, as Stream values do in module Basics.
module RandomAgent {
  import opened Basics
  import opened Spaces
  import opened Agent
  import opened Ranking

  /**
   * numpy's `random_interval(max)` at every seed and position of a
   * generator: a value in [0, max].
   */
  type Intervals = f: (int, nat, nat) -> nat | forall seed: int, position: nat, max: nat :: f(seed, position, max) <= max
    witness (seed: int, position: nat, max: nat) => 0

  /** `len(doc_obs)`: the number of documents of a dict, tuple or vector. */
  function DocCount(docs: Value): (r: Result<nat>)
    ensures docs.VDict? ==> r == Ok(|docs.entries|)
    ensures docs.VTuple? ==> r == Ok(|docs.elems|)
    ensures (docs.VNone? || docs.VInt? || docs.VReal?) ==> r == Err(TypeError)
  {
    match docs
    case VDict(entries) => Ok(|entries|)
    case VTuple(elems) => Ok(|elems|)
    case VArray(xs) => Ok(|xs|)
    case _ => Err(TypeError)
  }

  /** The positions `i` and `j` of `s` exchanged. */
  function Swapped<T>(s: seq<T>, i: nat, j: nat): (r: seq<T>)
    requires i < |s| && j < |s|
    ensures |r| == |s|
  {
    s[i := s[j]][j := s[i]]
  }

  /** An exchange only reorders. */
  lemma {:induction false} SwappedPermutes<T>(s: seq<T>, i: nat, j: nat)
    requires i < |s| && j < |s|
    ensures multiset(Swapped(s, i, j)) == multiset(s)
  {
    assert s[i := s[j]][j := s[i]] == Swapped(s, i, j);
  }

  /**
   * The shuffle's steps `i, i-1, ..., 1` from generator state `rs`: the
   * step at `i` exchanges position `i` with the interval draw in [0, i] at
   * the generator's current position, and the generator moves on by one.
   */
  function ShuffleDown<T>(s: seq<T>, rs: RandomState, intervals: Intervals, i: nat): (r: seq<T>)
    requires i < |s|
    ensures |r| == |s|
    decreases i
  {
    if i == 0 then s
    else ShuffleDown(Swapped(s, i, intervals(rs.seed, rs.position, i)), RandomState(rs.seed, rs.position + 1), intervals, i - 1)
  }

  /** The shuffle's steps only reorder. */
  lemma {:induction false} ShuffleDownPermutes<T>(s: seq<T>, rs: RandomState, intervals: Intervals, i: nat)
    requires i < |s|
    ensures multiset(ShuffleDown(s, rs, intervals, i)) == multiset(s)
    decreases i
  {
    if i > 0 {
      var j := intervals(rs.seed, rs.position, i);
      SwappedPermutes(s, i, j);
      ShuffleDownPermutes(Swapped(s, i, j), RandomState(rs.seed, rs.position + 1), intervals, i - 1);
    }
  }

  /** The draws a shuffle of `n` elements takes: one per step. */
  function DrawsNeeded(n: nat): nat
  {
    if n == 0 then 0 else n - 1
  }

  /** `rng.shuffle(x)`: all of its steps. */
  function Shuffled<T>(s: seq<T>, rs: RandomState, intervals: Intervals): (r: seq<T>)
    ensures |r| == |s|
  {
    if |s| <= 1 then s else ShuffleDown(s, rs, intervals, |s| - 1)
  }

  /** A shuffle is a permutation of what it shuffles. */
  lemma {:induction false} ShuffledPermutes<T>(s: seq<T>, rs: RandomState, intervals: Intervals)
    ensures multiset(Shuffled(s, rs, intervals)) == multiset(s)
  {
    if |s| > 1 {
      ShuffleDownPermutes(s, rs, intervals, |s| - 1);
    }
  }

  /**
   * The slate for `n` documents: the first `slate_size` positions of a
   * shuffle of `0..n-1`, and the generator after the shuffle's draws.
   */
  function RandomSlate(n: nat, slateSize: nat, rng: RandomState, intervals: Intervals): (r: (seq<nat>, RandomState))
  {
    var ids := Shuffled(Positions(n), rng, intervals);
    (ids[..if slateSize < n then slateSize else n], RandomState(rng.seed, rng.position + DrawsNeeded(n)))
  }

  /**
   * A random slate has `min(slate_size, n)` distinct positions of the `n`
   * documents, and the generator advances by one draw per shuffle step.
   */
  lemma {:induction false} RandomSlateValid(n: nat, slateSize: nat, rng: RandomState, intervals: Intervals)
    ensures var (slate, next) := RandomSlate(n, slateSize, rng, intervals);
      && |slate| == (if slateSize < n then slateSize else n)
      && Distinct(slate) && InRange(slate, n)
      && next == RandomState(rng.seed, rng.position + DrawsNeeded(n))
  {
    var ids := Shuffled(Positions(n), rng, intervals);
    ShuffledPermutes(Positions(n), rng, intervals);
    PermutationOfPositions(ids, n);
    PrefixValid(ids, if slateSize < n then slateSize else n, n);
  }

  /** A prefix of distinct positions below `n` is one too. */
  lemma {:induction false} PrefixValid(ids: seq<nat>, k: nat, n: nat)
    requires Distinct(ids) && InRange(ids, n) && k <= |ids|
    ensures Distinct(ids[..k]) && InRange(ids[..k], n)
  {
  }

  /** With `slate_size` at least the number of documents, the slate orders every document. */
  lemma {:induction false} FullSlateIsPermutation(n: nat, slateSize: nat, rng: RandomState, intervals: Intervals)
    requires n <= slateSize
    ensures var slate := RandomSlate(n, slateSize, rng, intervals).0;
      |slate| == n && forall p: nat :: p < n ==> p in slate
  {
    var ids := Shuffled(Positions(n), rng, intervals);
    ShuffledPermutes(Positions(n), rng, intervals);
    PermutationOfPositions(ids, n);
    assert ids[..n] == ids;
  }

  /**
   * The step: the documents are counted, and the slate depends on nothing
   * else of the observation (nor on the reward): `min(slate_size, n)`
   * distinct positions of the `n` documents. A step that raises draws
   * nothing.
   */
  function StepOutcome(observation: Value, slateSize: nat, rng: RandomState, intervals: Intervals): (r: (Result<Slate>, RandomState))
    ensures r.0.Err? ==> r.1 == rng
    ensures r.0.Ok? <==> Field(observation, "doc").Ok? && DocCount(Field(observation, "doc").value).Ok?
    ensures r.0.Ok? ==>
      var n := DocCount(Field(observation, "doc").value).value;
      && |r.0.value| == (if slateSize < n then slateSize else n)
      && Distinct(r.0.value) && forall k :: 0 <= k < |r.0.value| ==> 0 <= r.0.value[k] < n
  {
    var docs := Field(observation, "doc");
    if docs.Err? then (Err(docs.error), rng)
    else
      var n := DocCount(docs.value);
      if n.Err? then (Err(n.error), rng)
      else
        var (slate, next) := RandomSlate(n.value, slateSize, rng, intervals);
        RandomSlateValid(n.value, slateSize, rng, intervals);
        (Ok(slate), next)
  }

  /** A `RandomAgent`: its slate size, its generator and its episode counter. */
  class RandomAgent {
    const slateSize: nat
    var rng: RandomState
    var episodeNum: int

    /** `RandomAgent(action_space, random_seed)` once the slate size is read. */
    constructor (slateSize: nat, randomSeed: int)
      ensures this.slateSize == slateSize && rng == Seeded(randomSeed) && episodeNum == 0
    {
      this.slateSize := slateSize;
      rng := Seeded(randomSeed);
      episodeNum := 0;
    }

    /** `self._rng.shuffle(a)`, in place. */
    method Shuffle(a: array<nat>, intervals: Intervals)
      modifies this, a
      ensures a[..] == Shuffled(old(a[..]), old(rng), intervals)
      ensures rng == RandomState(old(rng).seed, old(rng).position + DrawsNeeded(a.Length))
      ensures episodeNum == old(episodeNum)
    {
      if a.Length <= 1 {
        return;
      }
      ghost var goal := Shuffled(a[..], rng, intervals);
      var g := rng;
      var i := a.Length - 1;
      while i > 0
        modifies a
        invariant 0 <= i < a.Length
        invariant g == RandomState(rng.seed, rng.position + (a.Length - 1 - i))
        invariant ShuffleDown(a[..], g, intervals, i) == goal
      {
        var j := intervals(g.seed, g.position, i);
        ghost var before := a[..];
        a[i], a[j] := a[j], a[i];
        assert a[..] == Swapped(before, i, j);
        g := RandomState(g.seed, g.position + 1);
        i := i - 1;
      }
      rng := g;
    }

    /** `step`: shuffles the document positions and keeps the first `slate_size`. */
    method Step(reward: real, observation: Value, intervals: Intervals) returns (r: Result<Slate>)
      modifies this
      ensures (r, rng) == StepOutcome(observation, slateSize, old(rng), intervals)
      ensures episodeNum == old(episodeNum)
    {
      var docs :- Field(observation, "doc");
      var n :- DocCount(docs);
      var ids := new nat[n](i => i);
      assert ids[..] == Positions(n);
      Shuffle(ids, intervals);
      var k := if slateSize < n then slateSize else n;
      r := Ok(ids[..k]);
    }

    /** `begin_episode`: counts the episode, then steps with reward 0. */
    method BeginEpisode(observation: Value, intervals: Intervals) returns (r: Result<Slate>)
      modifies this
      ensures episodeNum == old(episodeNum) + 1
      ensures (r, rng) == StepOutcome(observation, slateSize, old(rng), intervals)
    {
      episodeNum := episodeNum + 1;
      r := Step(0.0, observation, intervals);
    }

    /** The bundle holds the episode counter only; the generator is not saved. */
    method BundleAndCheckpoint() returns (b: Bundle)
      ensures b == EpisodeBundle(episodeNum)
    {
      b := [(EpisodeKey, CInt(episodeNum))];
    }

    /** Restores the counter when the bundle has one; otherwise reports failure and changes nothing. */
    method Unbundle(b: Bundle) returns (ok: bool)
      modifies this
      ensures ok == RestoredEpisode(b).Some?
      ensures episodeNum == (if ok then RestoredEpisode(b).value else old(episodeNum))
      ensures rng == old(rng)
    {
      if EpisodeKey !in Keys(b) {
        return false;
      }
      var v := Lookup(b, EpisodeKey);
      if v.Ok? && v.value.CInt? {
        episodeNum := v.value.n;
        ok := true;
      } else {
        ok := false;
      }
    }
  }

  /** `RandomAgent(action_space, random_seed)`: the slate size comes from the action space. */
  method NewRandomAgent(actionSpace: Space, randomSeed: int) returns (r: Result<RandomAgent>)
    ensures r.Ok? <==> actionSpace.MultiDiscrete?
    ensures r.Ok? ==> fresh(r.value) && r.value.slateSize == |actionSpace.nvec|
    ensures r.Ok? ==> r.value.rng == Seeded(randomSeed) && r.value.episodeNum == 0
  {
    var slateSize :- SlateSize(actionSpace);
    var agent := new RandomAgent(slateSize, randomSeed);
    return Ok(agent);
  }
}
