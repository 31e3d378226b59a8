// The click-bandit layer of recsim/agents/layers/abstract_click_bandit.py: a
// hierarchical layer whose base agents are the arms of a multi-armed
// bandit. At every step it scores the arms from the impression and click
// counts in the user's sufficient statistics, queries the arms from the
// best score down until their actions hold at least a slate's worth of
// documents, and packs those actions into one slate.
//
// The floating-point functions of the UCB scores and the scores KL-UCB and
// Thompson sampling draw are parameters (module BanditAlgorithms); the base
// agents are PolicyAgents whose step rules are given.
module AbstractClickBandit {
  import opened Basics
  import opened Spaces
  import opened Agent
  import opened Ranking
  import opened BanditAlgorithms

  const ImpressionCountKey: string := "impression_count"
  const ClickCountKey: string := "click_count"

  // ---------------------------------------------------------------------
  // Packing the arms' actions into one slate.
  // ---------------------------------------------------------------------

  /** The documents of the actions, one action after another. */
  function Concat(actions: seq<Slate>): Slate
  {
    if actions == [] then [] else Concat(actions[..|actions| - 1]) + actions[|actions| - 1]
  }

  lemma {:induction false} ConcatAppend(a: seq<Slate>, b: seq<Slate>)
    ensures Concat(a + b) == Concat(a) + Concat(b)
    decreases |b|
  {
    if b == [] {
      assert a + b == a;
    } else {
      var init, last := b[..|b| - 1], b[|b| - 1];
      var ab := a + b;
      assert ab[..|ab| - 1] == a + init && ab[|ab| - 1] == last;
      ConcatAppend(a, init);
      assert Concat(ab) == (Concat(a) + Concat(init)) + last;
      assert Concat(b) == Concat(init) + last;
      assert (Concat(a) + Concat(init)) + last == Concat(a) + (Concat(init) + last);
    }
  }

  /** The first `k` documents, or all of them when there are fewer. */
  function Take(s: Slate, k: nat): (r: Slate)
    ensures |r| == (if |s| < k then |s| else k) && r == s[..|r|]
  {
    if |s| <= k then s else s[..k]
  }

  /** Taking `k` documents of a longer slate ignores what follows the first `k`. */
  lemma {:induction false} TakeOfLonger(s: Slate, t: Slate, k: nat)
    requires |s| >= k
    ensures Take(s + t, k) == Take(s, k)
  {
    assert (s + t)[..k] == s[..k];
  }

  /** Taking `k` documents after a prefix shorter than `k`. */
  lemma {:induction false} TakeAfterShort(s: Slate, t: Slate, k: nat)
    requires |s| < k
    ensures Take(s + t, k) == s + t[..if |t| < k - |s| then |t| else k - |s|]
  {
    var m := if |t| < k - |s| then |t| else k - |s|;
    assert (s + t)[..|s| + m] == s + t[..m];
  }

  /** One more action packed into a slate that is not yet full. */
  lemma {:induction false} TakeNext(actions: seq<Slate>, i: nat, k: nat)
    requires i < |actions| && |Take(Concat(actions[..i]), k)| < k
    ensures var packed := Take(Concat(actions[..i]), k);
      var room := k - |packed|;
      Take(Concat(actions[..i + 1]), k) ==
        packed + actions[i][..if |actions[i]| < room then |actions[i]| else room]
  {
    assert actions[..i + 1][..i] == actions[..i];
    TakeAfterShort(Concat(actions[..i]), actions[i], k);
  }

  /** Once the packed slate is full, later actions change nothing. */
  lemma {:induction false} TakeFull(actions: seq<Slate>, i: nat, k: nat)
    requires i <= |actions| && |Take(Concat(actions[..i]), k)| == k
    ensures Take(Concat(actions), k) == Take(Concat(actions[..i]), k)
  {
    assert actions == actions[..i] + actions[i..];
    ConcatAppend(actions[..i], actions[i..]);
    TakeOfLonger(Concat(actions[..i]), Concat(actions[i..]), k);
  }

  // ---------------------------------------------------------------------
  // The order the arms are queried in.
  // ---------------------------------------------------------------------

  /** `-pulls`. */
  function Negated(pulls: seq<real>): (r: seq<real>)
    ensures |r| == |pulls| && forall i :: 0 <= i < |pulls| ==> r[i] == -pulls[i]
  {
    seq(|pulls|, i requires 0 <= i < |pulls| => -pulls[i])
  }

  /** The values of scores that are all finite. */
  function ScoreValues(scores: seq<Score>): (xs: seq<real>)
    requires forall i :: 0 <= i < |scores| ==> scores[i].Finite?
    ensures |xs| == |scores| && forall i :: 0 <= i < |scores| ==> xs[i] == scores[i].x
  {
    seq(|scores|, i requires 0 <= i < |scores| => scores[i].x)
  }

  /**
   * The order `step` queries the arms in: `arm_order.pop()` takes the last
   * arm of `np.argsort(scores)`, so the arms go from the highest score down.
   * The scores are the algorithm's once every arm has been pulled, and
   * `-pulls` before that.
   */
  function ArmOrder(pulls: seq<real>, scores: seq<Score>): (order: seq<nat>)
    requires |scores| == |pulls|
    requires AllPulled(pulls) ==> forall i :: 0 <= i < |scores| ==> scores[i].Finite?
    ensures |order| == |pulls| && InRange(order, |pulls|)
  {
    if AllPulled(pulls) then ReversedArgsort(ScoreValues(scores)) else ReversedArgsort(Negated(pulls))
  }

  /**
   * Every arm is queried at most once. While some arm is unpulled the arms
   * go from the fewest pulls up; afterwards from the highest score down.
   */
  lemma {:induction false} ArmOrderRanks(pulls: seq<real>, scores: seq<Score>)
    requires |scores| == |pulls|
    requires AllPulled(pulls) ==> forall i :: 0 <= i < |scores| ==> scores[i].Finite?
    ensures Distinct(ArmOrder(pulls, scores)) && forall p: nat :: p < |pulls| ==> p in ArmOrder(pulls, scores)
    ensures !AllPulled(pulls) ==> forall i, j :: 0 <= i < j < |pulls| ==>
      pulls[ArmOrder(pulls, scores)[i]] <= pulls[ArmOrder(pulls, scores)[j]]
    ensures AllPulled(pulls) ==> forall i, j :: 0 <= i < j < |pulls| ==>
      scores[ArmOrder(pulls, scores)[i]].x >= scores[ArmOrder(pulls, scores)[j]].x
  {
    if AllPulled(pulls) {
      ReversedArgsortIsSortedPermutation(ScoreValues(scores));
    } else {
      ReversedArgsortIsSortedPermutation(Negated(pulls));
    }
  }

  // ---------------------------------------------------------------------
  // Collecting the arms' actions.
  // ---------------------------------------------------------------------

  /**
   * The `while` loop of `step`: the arms are queried in order and their
   * actions kept until at least `k` documents are collected, counting from
   * `docs`. Running out of arms raises IndexError (`pop` from an empty
   * list), and so does an arm without a base agent; a base agent that
   * raises stops the loop.
   */
  function Collected(rules: seq<StepRule>, order: seq<nat>, reward: real, observation: Value, k: nat, docs: nat)
    : Result<seq<Slate>>
    decreases |order|
  {
    if docs >= k then Ok([])
    else if order == [] || order[0] >= |rules| then Err(IndexError)
    else
      var action :- rules[order[0]](reward, observation);
      var rest :- Collected(rules, order[1..], reward, observation, k, docs + |action|);
      Ok([action] + rest)
  }

  /**
   * What the loop collects holds at least `k` documents (counting from
   * `docs`), the last action was needed to reach them, and no more arms
   * are queried than there are in the order.
   */
  lemma {:induction false} CollectedFills(rules: seq<StepRule>, order: seq<nat>, reward: real, observation: Value, k: nat, docs: nat)
    ensures var r := Collected(rules, order, reward, observation, k, docs);
      && (r.Ok? ==> docs + |Concat(r.value)| >= k && |r.value| <= |order|)
      && (r.Ok? && r.value != [] ==> docs + |Concat(r.value[..|r.value| - 1])| < k)
    decreases |order|
  {
    if docs < k && order != [] && order[0] < |rules| && rules[order[0]](reward, observation).Ok? {
      var action := rules[order[0]](reward, observation).value;
      var rest := Collected(rules, order[1..], reward, observation, k, docs + |action|);
      if rest.Ok? {
        CollectedFills(rules, order[1..], reward, observation, k, docs + |action|);
        PrependedLengths(action, rest.value);
      }
    }
  }

  /** The document counts of `[action] + rs` and of it without its last action. */
  lemma {:induction false} PrependedLengths(action: Slate, rs: seq<Slate>)
    ensures |Concat([action] + rs)| == |action| + |Concat(rs)|
    ensures rs != [] ==> |Concat(([action] + rs)[..|rs|])| == |action| + |Concat(rs[..|rs| - 1])|
  {
    ConcatAppend([action], rs);
    assert Concat([action]) == action;
    if rs != [] {
      assert ([action] + rs)[..|rs|] == [action] + rs[..|rs| - 1];
      ConcatAppend([action], rs[..|rs| - 1]);
    }
  }

  /** The actions collected before, prepended to what the rest of the loop collects. */
  function Prefixed(actions: seq<Slate>, r: Result<seq<Slate>>): Result<seq<Slate>>
  {
    if r.Ok? then Ok(actions + r.value) else r
  }

  lemma {:induction false} PrefixedNothing(order: seq<nat>, r: Result<seq<Slate>>)
    ensures order[0..] == order && Prefixed([], r) == r
  {
    assert r.Ok? ==> [] + r.value == r.value;
  }

  lemma {:induction false} PrefixedAppend(actions: seq<Slate>, action: Slate, r: Result<seq<Slate>>)
    ensures Prefixed(actions, Prefixed([action], r)) == Prefixed(actions + [action], r)
    ensures Prefixed(actions, Ok([])) == Ok(actions)
  {
    assert actions + [] == actions;
    assert r.Ok? ==> actions + ([action] + r.value) == (actions + [action]) + r.value;
  }

  /** One round of the loop: the arm at `i` is queried and the loop goes on after it. */
  lemma {:induction false} CollectedNext(rules: seq<StepRule>, order: seq<nat>, i: nat, reward: real, observation: Value, k: nat, docs: nat)
    requires i < |order| && docs < k && order[i] < |rules| && rules[order[i]](reward, observation).Ok?
    ensures var action := rules[order[i]](reward, observation).value;
      Collected(rules, order[i..], reward, observation, k, docs) ==
        Prefixed([action], Collected(rules, order[i + 1..], reward, observation, k, docs + |action|))
  {
    var rest := order[i..];
    assert rest[0] == order[i] && rest[1..] == order[i + 1..];
    assert rest != [];
  }

  /** Where the loop stops: enough documents, no arm left, or an arm that raises. */
  lemma {:induction false} CollectedStops(rules: seq<StepRule>, order: seq<nat>, i: nat, reward: real, observation: Value, k: nat, docs: nat)
    requires i <= |order|
    ensures docs >= k ==> Collected(rules, order[i..], reward, observation, k, docs) == Ok([])
    ensures docs < k && (i == |order| || order[i] >= |rules|) ==>
      Collected(rules, order[i..], reward, observation, k, docs) == Err(IndexError)
    ensures docs < k && i < |order| && order[i] < |rules| && rules[order[i]](reward, observation).Err? ==>
      Collected(rules, order[i..], reward, observation, k, docs) == Err(rules[order[i]](reward, observation).error)
  {
  }

  // ---------------------------------------------------------------------
  // The step.
  // ---------------------------------------------------------------------

  /**
   * `observation['user']['sufficient_statistics'][name]`, a numpy vector of
   * counts; a value of any other kind is refused with TypeError.
   */
  function Statistic(observation: Value, name: string): (r: Result<seq<real>>)
    ensures r.Ok? ==> Field(observation, "user").Ok?
    ensures r.Ok? ==> Field(Field(observation, "user").value, "sufficient_statistics").Ok?
    ensures r.Ok? ==>
      Field(Field(Field(observation, "user").value, "sufficient_statistics").value, name) == Ok(VArray(r.value))
  {
    var user :- Field(observation, "user");
    var statistics :- Field(user, "sufficient_statistics");
    var counts :- Field(statistics, name);
    if counts.VArray? then Ok(counts.reals) else Err(TypeError)
  }

  /** The algorithm's parameters: `{'optimism_scaling': ci_scaling}`. */
  function Params(ciScaling: real): (params: seq<(string, real)>)
    ensures OptimismScaling(params) == ciScaling
  {
    [(OptimismKey, ciScaling)]
  }

  /** The scores KL-UCB or Thompson sampling draws for `n` arms, arm by arm. */
  function Sampled(sample: nat -> real, n: nat): (xs: seq<real>)
    ensures |xs| == n && forall i :: 0 <= i < n ==> xs[i] == sample(i)
  {
    seq(n, i requires 0 <= i < n => sample(i))
  }

  /** What a click-bandit layer is configured with. */
  datatype BanditConfig = BanditConfig(slateSize: nat, kind: Kind, ciScaling: real, randomSeed: int)

  /**
   * The layer's `step`: an algorithm with one arm per count (at least two)
   * is set to the impression and click counts; the arms are queried in
   * the order of its scores until a slate's worth of documents is collected;
   * the slate is the first `slate_size` of them.
   */
  function StepOutcome(c: BanditConfig, rules: seq<StepRule>, reward: real, observation: Value, num: Numerics,
                       sample: nat -> real): (r: Result<Slate>)
    ensures r.Ok? ==> Statistic(observation, ImpressionCountKey).Ok? && Statistic(observation, ClickCountKey).Ok?
    ensures r.Ok? ==> |Statistic(observation, ImpressionCountKey).value| >= 2
    ensures r.Ok? ==> |Statistic(observation, ClickCountKey).value| == |Statistic(observation, ImpressionCountKey).value|
    ensures r.Ok? ==> |r.value| == c.slateSize
  {
    var pulls :- Statistic(observation, ImpressionCountKey);
    var clicks :- Statistic(observation, ClickCountKey);
    if |pulls| < 2 || |clicks| != |pulls| then Err(ValueError)
    else
      var scores := Scores(c.kind, pulls, clicks, c.ciScaling, Sum(pulls), num, Sampled(sample, |pulls|));
      var actions :- Collected(rules, ArmOrder(pulls, scores), reward, observation, c.slateSize, 0);
      CollectedFills(rules, ArmOrder(pulls, scores), reward, observation, c.slateSize, 0);
      Ok(Take(Concat(actions), c.slateSize))
  }

  /** An `AbstractClickBanditLayer` over its arms' base agents. */
  class AbstractClickBanditLayer {
    const config: BanditConfig
    const bases: seq<PolicyAgent>

    /** Distinct base agents, one per arm. */
    predicate Valid()
    {
      Distinct(bases)
    }

    constructor (config: BanditConfig, bases: seq<PolicyAgent>)
      requires Distinct(bases)
      ensures Valid() && this.config == config && this.bases == bases
    {
      this.config := config;
      this.bases := bases;
    }

    /** `_postprocess_actions`: packs the actions into a slate of at most `slate_size` documents. */
    method PostprocessActions(actions: seq<Slate>) returns (slate: Slate)
      ensures slate == Take(Concat(actions), config.slateSize)
    {
      var k := config.slateSize;
      slate := [];
      var i := 0;
      while i < |actions|
        invariant 0 <= i <= |actions|
        invariant slate == Take(Concat(actions[..i]), k) && |slate| <= k
      {
        var action := actions[i];
        if action != [] {
          var room := k - |slate|;
          var use := if |action| < room then |action| else room;
          if |slate| < k {
            TakeNext(actions, i, k);
          }
          slate := slate + action[..use];
          if |slate| == k {
            TakeFull(actions, i + 1, k);
            return;
          }
        } else {
          assert actions[..i + 1][..i] == actions[..i];
          assert Concat(actions[..i + 1]) == Concat(actions[..i]) + [];
        }
        i := i + 1;
      }
      assert actions[..i] == actions;
    }

    /** The `while` loop of `step`: queries the arms in order until a slate's worth is collected. */
    method Collect(order: seq<nat>, reward: real, observation: Value) returns (r: Result<seq<Slate>>)
      ensures r == Collected(Rules(bases), order, reward, observation, config.slateSize, 0)
    {
      var rules := Rules(bases);
      var k := config.slateSize;
      ghost var goal := Collected(rules, order, reward, observation, k, 0);
      var remaining := order;
      var actions: seq<Slate> := [];
      var docs: nat := 0;
      PrefixedNothing(order, goal);
      while docs < k
        invariant goal == Prefixed(actions, Collected(rules, remaining, reward, observation, k, docs))
        decreases |remaining|
      {
        if remaining == [] || remaining[0] >= |bases| {
          return Err(IndexError);
        }
        var action := bases[remaining[0]].Step(reward, observation);
        assert action == rules[remaining[0]](reward, observation);
        if action.Err? {
          return Err(action.error);
        }
        PrefixedAppend(actions, action.value,
          Collected(rules, remaining[1..], reward, observation, k, docs + |action.value|));
        docs := docs + |action.value|;
        actions := actions + [action.value];
        remaining := remaining[1..];
      }
      PrefixedAppend(actions, [], Ok([]));
      r := Ok(actions);
    }

    /**
     * `step`: reads the counts, scores the arms with a fresh algorithm set
     * to them, collects the arms' actions in score order and packs them.
     * The reward is passed to the base agents unchanged.
     */
    method Step(reward: real, observation: Value, num: Numerics, sample: nat -> real) returns (r: Result<Slate>)
      ensures r == StepOutcome(config, Rules(bases), reward, observation, num, sample)
    {
      ghost var outcome := StepOutcome(config, Rules(bases), reward, observation, num, sample);
      var pulls :- Statistic(observation, ImpressionCountKey);
      var clicks :- Statistic(observation, ClickCountKey);
      var algorithm :- NewMABAlgorithm(config.kind, |pulls|, Params(config.ciScaling), config.randomSeed);
      var stateSet :- algorithm.SetState(pulls, clicks);
      var scores := algorithm.GetScore(Sum(pulls), num, Sampled(sample, |pulls|));
      assert scores == Scores(config.kind, pulls, clicks, config.ciScaling, Sum(pulls), num, Sampled(sample, |pulls|));
      var actions :- Collect(ArmOrder(pulls, scores), reward, observation);
      var slate := PostprocessActions(actions);
      r := Ok(slate);
    }

    /**
     * The layer's `begin_episode`: every base agent begins its episode on
     * the observation, until one raises; their actions are packed.
     */
    method BeginEpisode(observation: Value) returns (r: Result<Slate>)
      requires Valid()
      modifies set a | a in bases
      ensures var actions := Actions(Rules(bases), 0.0, observation);
        r == if actions.Ok? then Ok(Take(Concat(actions.value), config.slateSize)) else Err(actions.error)
      ensures forall i :: 0 <= i < |bases| ==>
        bases[i].episodeNum == old(bases[i].episodeNum) + (if i < Started(Rules(bases), observation) then 1 else 0)
    {
      var actions :- BeginEpisodes(bases, observation);
      var slate := PostprocessActions(actions);
      r := Ok(slate);
    }

    /**
     * The layer's `end_episode`: every base agent ends its episode, which
     * does nothing, and their `None` actions pack into an empty slate.
     */
    method EndEpisode(reward: real, observation: Value) returns (slate: Slate)
      ensures slate == []
    {
      for i := 0 to |bases| {
        bases[i].EndEpisode(reward, observation);
      }
      slate := [];
    }

    /** The layer's bundle: each base agent's bundle under its key. */
    method BundleAndCheckpoint() returns (b: Bundle)
      ensures b == LayerBundle(EpisodeBundles(EpisodeNums(bases)))
    {
      b := BundleLayer(bases);
    }

    /** Restores every base agent from its bundle; false when a bundle is missing. */
    method Unbundle(b: Bundle) returns (ok: bool)
      requires Valid()
      modifies set a | a in bases
      ensures (ok, EpisodeNums(bases)) == LayerRestore(b, BaseKeys(|bases|), old(EpisodeNums(bases)), 0, true)
    {
      ok := UnbundleLayer(bases, b);
    }
  }

  /** `space.shape[0]`: the length of a vector space; spaces without a first dimension raise. */
  function Leading(space: Space): (r: Result<nat>)
  {
    match space
    case Box(shape, _, _) => if shape == [] then Err(IndexError) else Ok(shape[0])
    case MultiDiscrete(nvec) => Ok(|nvec|)
    case MultiBinary(size) => Ok(size)
    case Discrete(_) => Err(IndexError)
    case _ => Err(TypeError)
  }

  /**
   * What the constructor reads of the user space as written: the
   * sufficient-statistics space and the first dimension of its impression
   * and click count spaces. The ValueErrors it builds when a key is missing
   * or a count space does not have one entry per arm are never raised, so
   * only the lookups themselves can fail.
   */
  function CountShapes(observationSpace: Space): (r: Result<(nat, nat)>)
    ensures r.Ok? ==> SpaceField(observationSpace, "user").Ok?
    ensures r.Ok? ==> SpaceField(SpaceField(observationSpace, "user").value, "sufficient_statistics").Ok?
  {
    var user :- SpaceField(observationSpace, "user");
    var statistics :- SpaceField(user, "sufficient_statistics");
    var impressions :- SpaceField(statistics, ImpressionCountKey);
    var impressionArms :- Leading(impressions);
    var clicks :- SpaceField(statistics, ClickCountKey);
    var clickArms :- Leading(clicks);
    Ok((impressionArms, clickArms))
  }

  /** One fresh base agent per rule, in order, for slates of `slateSize`. */
  method NewPolicyAgents(slateSize: nat, rules: seq<StepRule>) returns (bases: seq<PolicyAgent>)
    ensures |bases| == |rules| && Distinct(bases) && Rules(bases) == rules
    ensures forall i :: 0 <= i < |bases| ==> fresh(bases[i]) && bases[i].episodeNum == 0
  {
    bases := [];
    var i := 0;
    while i < |rules|
      invariant 0 <= i <= |rules| && |bases| == i && Distinct(bases)
      invariant forall j :: 0 <= j < i ==> fresh(bases[j]) && bases[j].policy == rules[j] && bases[j].episodeNum == 0
    {
      var agent := new PolicyAgent(slateSize, rules[i]);
      bases := bases + [agent];
      i := i + 1;
    }
    assert Rules(bases) == rules;
  }

  /**
   * `AbstractClickBanditLayer(observation_space, action_space,
   * arm_base_agent_ctors, alg_ctor, ci_scaling, random_seed)` as written:
   * the slate size of the action space, then the count spaces, whatever
   * their length; one base agent per arm.
   */
  method NewAbstractClickBanditLayerAsWritten(observationSpace: Space, actionSpace: Space, rules: seq<StepRule>, kind: Kind,
                                     ciScaling: real, randomSeed: int) returns (r: Result<AbstractClickBanditLayer>)
    ensures r.Ok? <==> actionSpace.MultiDiscrete? && CountShapes(observationSpace).Ok?
    ensures !actionSpace.MultiDiscrete? ==> r == Err(AttributeError)
    ensures r.Ok? ==> fresh(r.value) && r.value.Valid() && Rules(r.value.bases) == rules
    ensures r.Ok? ==> r.value.config == BanditConfig(|actionSpace.nvec|, kind, ciScaling, randomSeed)
    ensures r.Ok? ==> forall i :: 0 <= i < |rules| ==> fresh(r.value.bases[i]) && r.value.bases[i].episodeNum == 0
  {
    var slateSize :- SlateSize(actionSpace);
    var shapes :- CountShapes(observationSpace);
    var bases := NewPolicyAgents(slateSize, rules);
    var layer := new AbstractClickBanditLayer(BanditConfig(slateSize, kind, ciScaling, randomSeed), bases);
    return Ok(layer);
  }

  /**
   * Two arms over sufficient statistics kept for three clusters: the
   * constructor as written accepts them, although its messages say the
   * count spaces must have one entry per arm; with the checks raised the
   * space is refused.
   */
  lemma {:induction false} MismatchedCountsAccepted()
    ensures CountShapes(ThreeClusterSpace()) == Ok((3, 3))
    ensures CheckedCountShapes(ThreeClusterSpace(), 2) == Err(ValueError)
  {
    var counts := ThreeClusterSpace().fields[0].1.fields[0].1;
    assert Keys(counts.fields) == [ClickCountKey, ImpressionCountKey];
    assert Lookup(counts.fields, ImpressionCountKey) == Ok(counts.fields[1].1);
  }

  /** An observation space whose user has impression and click counts over three clusters. */
  function ThreeClusterSpace(): (space: Space)
    ensures space.DictSpace? && |space.fields| == 1 && space.fields[0].1.DictSpace?
    ensures |space.fields[0].1.fields| == 1 && space.fields[0].1.fields[0].1.DictSpace?
    ensures |space.fields[0].1.fields[0].1.fields| == 2
  {
    var count := Box([3], Repeat(Bounded(0.0), 3), Repeat(Unbounded(true), 3));
    DictSpace([("user", DictSpace([("sufficient_statistics",
      DictSpace([(ClickCountKey, count), (ImpressionCountKey, count)]))]))])
  }

  /**
   * The constructor's checks with their ValueErrors raised: the user space
   * must hold sufficient statistics with impression and click counts, each
   * with one entry per arm. Reading the user space itself still fails as
   * before.
   */
  function CheckedCountShapes(observationSpace: Space, numArms: nat): (r: Result<()>)
    ensures r.Ok? ==> CountShapes(observationSpace) == Ok((numArms, numArms))
    ensures CountShapes(observationSpace).Ok? && CountShapes(observationSpace).value != (numArms, numArms) ==>
      r == Err(ValueError)
  {
    var user :- SpaceField(observationSpace, "user");
    var hasStatistics :- HasPart(user, "sufficient_statistics");
    if !hasStatistics then Err(ValueError)
    else
      var statistics := SpaceField(user, "sufficient_statistics").value;
      var hasImpressions :- HasPart(statistics, ImpressionCountKey);
      if !hasImpressions || !HasPart(statistics, ClickCountKey).value then Err(ValueError)
      else
        var impressionArms :- Leading(SpaceField(statistics, ImpressionCountKey).value);
        var clickArms :- Leading(SpaceField(statistics, ClickCountKey).value);
        if impressionArms != numArms || clickArms != numArms then Err(ValueError) else Ok(())
  }

  /**
   * The constructor with its checks raised: besides a multi-discrete
   * action space it demands count spaces with one entry per arm, and
   * refuses anything else with ValueError.
   */
  method NewAbstractClickBanditLayer(observationSpace: Space, actionSpace: Space, rules: seq<StepRule>, kind: Kind,
                                     ciScaling: real, randomSeed: int) returns (r: Result<AbstractClickBanditLayer>)
    ensures r.Ok? <==> actionSpace.MultiDiscrete? && CheckedCountShapes(observationSpace, |rules|).Ok?
    ensures !actionSpace.MultiDiscrete? ==> r == Err(AttributeError)
    ensures r.Ok? ==> CountShapes(observationSpace) == Ok((|rules|, |rules|))
    ensures r.Ok? ==> fresh(r.value) && r.value.Valid() && Rules(r.value.bases) == rules
    ensures r.Ok? ==> r.value.config == BanditConfig(|actionSpace.nvec|, kind, ciScaling, randomSeed)
    ensures r.Ok? ==> forall i :: 0 <= i < |rules| ==> fresh(r.value.bases[i]) && r.value.bases[i].episodeNum == 0
  {
    var slateSize :- SlateSize(actionSpace);
    var checked :- CheckedCountShapes(observationSpace, |rules|);
    var bases := NewPolicyAgents(slateSize, rules);
    var layer := new AbstractClickBanditLayer(BanditConfig(slateSize, kind, ciScaling, randomSeed), bases);
    return Ok(layer);
  }
}
