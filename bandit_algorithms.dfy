// The multi-armed bandit algorithms of recsim/agents/bandits/algorithms.py:
// per-arm pull counts and reward sums kept in two arrays, the reward check of
// `update` (with Thompson sampling's binarization of fractional rewards),
// and the confidence scores whose "pull every arm once first" rule decides
// the arm while some arm is unpulled. The floating-point functions (`sqrt`,
// `log`) are supplied; so are the scores that come from KL-UCB's binary
// search and Thompson sampling's beta draws.
module BanditAlgorithms {
  import opened Basics
  import opened Spaces

  /** The algorithm a `MABAlgorithm` object is an instance of. */
  datatype Kind = UCB1 | KLUCB | ThompsonSampling

  /** A score: a real number or `np.Inf`. */
  datatype Score = Finite(x: real) | Infinity

  /** `a >= b` on scores. */
  predicate AtLeast(a: Score, b: Score)
  {
    a.Infinity? || (b.Finite? && a.x >= b.x)
  }

  /** `np.argmax`: the first position of a largest score. */
  function FirstMaxScore(scores: seq<Score>): (i: nat)
    requires scores != []
    ensures i < |scores|
    ensures forall j :: 0 <= j < |scores| ==> AtLeast(scores[i], scores[j])
    ensures forall j :: 0 <= j < i ==> !AtLeast(scores[j], scores[i])
  {
    if |scores| == 1 then 0
    else
      var i := FirstMaxScore(scores[..|scores| - 1]);
      if AtLeast(scores[i], scores[|scores| - 1]) then i else |scores| - 1
  }

  /** `all(pulls)`: no arm has a count of zero. */
  predicate AllPulled(pulls: seq<real>)
  {
    forall i :: 0 <= i < |pulls| ==> pulls[i] != 0.0
  }

  /** `np.where(pulls > 0, 0, np.Inf)`. */
  function ExploratoryScores(pulls: seq<real>): (scores: seq<Score>)
    ensures |scores| == |pulls|
    ensures forall i :: 0 <= i < |pulls| ==> scores[i] == if pulls[i] > 0.0 then Finite(0.0) else Infinity
  {
    if pulls == [] then []
    else ExploratoryScores(pulls[..|pulls| - 1]) + [if pulls[|pulls| - 1] > 0.0 then Finite(0.0) else Infinity]
  }

  /** The floating-point functions the scores use. */
  datatype Numerics = Numerics(sqrt: real -> real, log: real -> real)

  /** UCB1's bound for one arm: its mean reward plus `ct * sqrt(1 / pulls)`. */
  function UpperBound(pulls: real, reward: real, ct: real, num: Numerics): real
    requires pulls != 0.0
  {
    reward / pulls + ct * num.sqrt(1.0 / pulls)
  }

  /** UCB1's bounds when every arm is pulled, with `ct = optimism * sqrt(2 log t)`. */
  function UCB1Scores(pulls: seq<real>, reward: seq<real>, optimism: real, t: real, num: Numerics): (scores: seq<Score>)
    requires |reward| == |pulls| && AllPulled(pulls)
    ensures |scores| == |pulls|
    ensures forall i :: 0 <= i < |pulls| ==>
      scores[i] == Finite(UpperBound(pulls[i], reward[i], optimism * num.sqrt(2.0 * num.log(t)), num))
  {
    var ct := optimism * num.sqrt(2.0 * num.log(t));
    seq(|pulls|, i requires 0 <= i < |pulls| => Finite(UpperBound(pulls[i], reward[i], ct, num)))
  }

  /** A supplied score vector, as finite scores. */
  function FiniteScores(xs: seq<real>): (scores: seq<Score>)
    ensures |scores| == |xs| && forall i :: 0 <= i < |xs| ==> scores[i] == Finite(xs[i])
  {
    seq(|xs|, i requires 0 <= i < |xs| => Finite(xs[i]))
  }

  /**
   * `get_score(t)`. UCB1 and KL-UCB score 0 for a pulled arm and infinity
   * for an unpulled one while some arm has no pull; then UCB1 computes its
   * bounds and KL-UCB's search result is `sampled`. Thompson sampling's
   * posterior draws are `sampled`.
   */
  function Scores(kind: Kind, pulls: seq<real>, reward: seq<real>, optimism: real, t: real, num: Numerics, sampled: seq<real>)
    : (scores: seq<Score>)
    requires |reward| == |pulls| && |sampled| == |pulls|
    ensures |scores| == |pulls|
    ensures kind != ThompsonSampling && !AllPulled(pulls) ==> scores == ExploratoryScores(pulls)
    ensures kind == ThompsonSampling || AllPulled(pulls) ==> forall i :: 0 <= i < |scores| ==> scores[i].Finite?
  {
    match kind
    case ThompsonSampling => FiniteScores(sampled)
    case UCB1 => if AllPulled(pulls) then UCB1Scores(pulls, reward, optimism, t, num) else ExploratoryScores(pulls)
    case KLUCB => if AllPulled(pulls) then FiniteScores(sampled) else ExploratoryScores(pulls)
  }

  /**
   * While some arm has no pull, UCB1 and KL-UCB choose the first arm whose
   * count is not positive: with counts that are never negative, the first
   * unpulled arm.
   */
  lemma {:induction false} UnpulledArmFirst(kind: Kind, pulls: seq<real>, reward: seq<real>, optimism: real, t: real, num: Numerics, sampled: seq<real>)
    requires |reward| == |pulls| && |sampled| == |pulls| && pulls != []
    requires kind != ThompsonSampling && !AllPulled(pulls)
    ensures var arm := FirstMaxScore(Scores(kind, pulls, reward, optimism, t, num, sampled));
      pulls[arm] <= 0.0 && forall j :: 0 <= j < arm ==> pulls[j] > 0.0
    ensures (forall i :: 0 <= i < |pulls| ==> pulls[i] >= 0.0) ==>
      var arm := FirstMaxScore(Scores(kind, pulls, reward, optimism, t, num, sampled));
      pulls[arm] == 0.0 && forall j :: 0 <= j < arm ==> pulls[j] != 0.0
  {
    var scores := Scores(kind, pulls, reward, optimism, t, num, sampled);
    var arm := FirstMaxScore(scores);
    var k :| 0 <= k < |pulls| && pulls[k] == 0.0;
    assert scores[k] == Infinity;
    assert scores[arm].Infinity?;
  }

  /**
   * The reward Thompson sampling records for an observed reward, with the
   * generator position afterwards: a reward strictly between 0 and 1
   * becomes 1 with that probability (one draw), any other reward is kept.
   * The other algorithms record the reward as observed.
   */
  function Recorded(kind: Kind, r: real, rng: RandomState, stream: Stream): (out: (real, RandomState))
    ensures kind != ThompsonSampling || r <= 0.0 || r >= 1.0 ==> out == (r, rng)
    ensures kind == ThompsonSampling && 0.0 < r < 1.0 ==> out.0 == 0.0 || out.0 == 1.0
  {
    if kind == ThompsonSampling && 0.0 < r < 1.0 then
      var (u, next) := Draw(rng, stream);
      (if u < r then 1.0 else 0.0, next)
    else (r, rng)
  }

  /** The recorded reward is accepted exactly when the observed one lies in [0, 1]. */
  lemma {:induction false} RecordedInRange(kind: Kind, r: real, rng: RandomState, stream: Stream)
    ensures 0.0 <= Recorded(kind, r, rng, stream).0 <= 1.0 <==> 0.0 <= r <= 1.0
  {
  }

  /** No arm has more reward than pulls, nor negative reward. */
  ghost predicate Consistent(pulls: seq<real>, reward: seq<real>)
  {
    |pulls| == |reward| && forall i :: 0 <= i < |pulls| ==> 0.0 <= reward[i] <= pulls[i]
  }

  /** A bandit algorithm's state over `numArms` arms. */
  class MABAlgorithm {
    const kind: Kind
    const numArms: nat
    const pulls: array<real>
    const reward: array<real>
    var optimismScaling: real
    var rng: RandomState

    ghost predicate Valid()
      reads this
    {
      numArms >= 2 && pulls.Length == numArms && reward.Length == numArms && pulls != reward
    }

    /** Zero pulls and zero reward on every arm; the generator seeded with `seed`. */
    constructor (kind: Kind, numArms: nat, optimismScaling: real, seed: int)
      requires numArms >= 2
      ensures Valid() && fresh(pulls) && fresh(reward)
      ensures this.kind == kind && this.numArms == numArms && this.optimismScaling == optimismScaling
      ensures pulls[..] == Repeat(0.0, numArms) && reward[..] == Repeat(0.0, numArms)
      ensures rng == Seeded(seed)
    {
      this.kind := kind;
      this.numArms := numArms;
      pulls := new real[numArms](_ => 0.0);
      reward := new real[numArms](_ => 0.0);
      this.optimismScaling := optimismScaling;
      rng := Seeded(seed);
    }

    /** `set_state`: copies both vectors, which must have one entry per arm. */
    method SetState(newPulls: seq<real>, newReward: seq<real>) returns (r: Result<()>)
      requires Valid()
      modifies pulls, reward
      ensures r.Ok? <==> |newPulls| == numArms && |newReward| == numArms
      ensures r.Ok? ==> pulls[..] == newPulls && reward[..] == newReward
      ensures r.Err? ==> r.error == ValueError && pulls[..] == old(pulls[..]) && reward[..] == old(reward[..])
    {
      if |newPulls| != pulls.Length || |newReward| != reward.Length {
        return Err(ValueError);
      }
      forall i | 0 <= i < pulls.Length {
        pulls[i] := newPulls[i];
      }
      forall i | 0 <= i < reward.Length {
        reward[i] := newReward[i];
      }
      r := Ok(());
    }

    /**
     * `update(arm, reward)`: the (possibly binarized) reward must lie in
     * [0, 1]; the arm, indexed as numpy does, gains one pull and the reward.
     */
    method Update(arm: int, r: real, stream: Stream) returns (res: Result<()>)
      requires Valid()
      modifies this, pulls, reward
      ensures Valid() && optimismScaling == old(optimismScaling)
      ensures rng == Recorded(kind, r, old(rng), stream).1
      ensures res.Ok? <==> 0.0 <= r <= 1.0 && -(numArms as int) <= arm < numArms
      ensures !(0.0 <= r <= 1.0) ==> res == Err(ValueError)
      ensures res.Ok? ==>
        var p := PyPosition(numArms, arm).value;
        pulls[..] == old(pulls[..])[p := old(pulls[p]) + 1.0] &&
        reward[..] == old(reward[..])[p := old(reward[p]) + Recorded(kind, r, old(rng), stream).0]
      ensures res.Err? ==> pulls[..] == old(pulls[..]) && reward[..] == old(reward[..])
      ensures old(Consistent(pulls[..], reward[..])) ==> Consistent(pulls[..], reward[..])
    {
      var (value, next) := Recorded(kind, r, rng, stream);
      rng := next;
      RecordedInRange(kind, r, old(rng), stream);
      if value < 0.0 || value > 1.0 {
        return Err(ValueError);
      }
      var p :- PyPosition(pulls.Length, arm);
      pulls[p] := pulls[p] + 1.0;
      reward[p] := reward[p] + value;
      res := Ok(());
    }

    /** `get_score(t)`, with the scores that need floating-point search or sampling supplied. */
    method GetScore(t: real, num: Numerics, sampled: seq<real>) returns (scores: seq<Score>)
      requires Valid() && |sampled| == numArms
      ensures scores == Scores(kind, pulls[..], reward[..], optimismScaling, t, num, sampled)
    {
      scores := Scores(kind, pulls[..], reward[..], optimismScaling, t, num, sampled);
    }

    /** `get_arm(t)`: the first arm of largest score. */
    method GetArm(t: real, num: Numerics, sampled: seq<real>) returns (arm: nat)
      requires Valid() && |sampled| == numArms
      ensures arm == FirstMaxScore(Scores(kind, pulls[..], reward[..], optimismScaling, t, num, sampled))
      ensures kind != ThompsonSampling && !AllPulled(pulls[..]) ==> pulls[arm] <= 0.0
    {
      var scores := GetScore(t, num, sampled);
      arm := FirstMaxScore(scores);
      if kind != ThompsonSampling && !AllPulled(pulls[..]) {
        UnpulledArmFirst(kind, pulls[..], reward[..], optimismScaling, t, num, sampled);
      }
    }
  }

  const OptimismKey: string := "optimism_scaling"

  /** The optimism scaling after the parameters are applied: 1.0 unless they set it. */
  function OptimismScaling(params: seq<(string, real)>): (s: real)
    ensures OptimismKey !in Keys(params) ==> s == 1.0
    ensures OptimismKey in Keys(params) ==> s == Lookup(params, OptimismKey).value
  {
    var v := Lookup(params, OptimismKey);
    if v.Ok? then v.value else 1.0
  }

  /** `Algorithm(num_arms, params, seed)`: fewer than two arms is a ValueError. */
  method NewMABAlgorithm(kind: Kind, numArms: int, params: seq<(string, real)>, seed: int) returns (r: Result<MABAlgorithm>)
    ensures r.Ok? <==> numArms >= 2
    ensures r.Err? ==> r.error == ValueError
    ensures r.Ok? ==> fresh(r.value) && fresh(r.value.pulls) && fresh(r.value.reward) && r.value.Valid()
    ensures r.Ok? ==> r.value.kind == kind && r.value.numArms == numArms && r.value.rng == Seeded(seed)
    ensures r.Ok? ==> r.value.pulls[..] == Repeat(0.0, numArms) && r.value.reward[..] == Repeat(0.0, numArms)
    ensures r.Ok? ==> r.value.optimismScaling == OptimismScaling(params)
  {
    if numArms < 2 {
      return Err(ValueError);
    }
    var algorithm := new MABAlgorithm(kind, numArms, OptimismScaling(params), seed);
    return Ok(algorithm);
  }
}
