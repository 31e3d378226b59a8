// The agent interface of recsim/agent.py: the slate size taken from the
// action space, the episodic agent's episode counter with its checkpoint
// bundle, and the hierarchical layer's bundle of its base agents' bundles.
//
// An agent whose `step` depends only on its reward and observation is a
// `PolicyAgent`: its step rule is a function, and the episode counter is
// its one mutable field. The hierarchical layers use such agents as their
// base agents.
module Agent {
  import opened Basics
  import opened Decimal
  import opened Spaces

  /** A slate: positions into the observed documents. */
  type Slate = seq<int>

  /** A step rule: the slate an agent returns for a reward and an observation. */
  type StepRule = (real, Value) -> Result<Slate>

  /** A tabular agent's key: the discretized features of a state and a slate. */
  type StateAction = seq<int>

  /** The values an agent puts in its checkpoint bundle. */
  datatype Checkpoint =
    | CInt(n: int)
    | CTable(table: map<StateAction, real>)
    | CCounts(counts: map<StateAction, int>)
    | CBundle(entries: Bundle)

  /** A checkpoint bundle: a dict from names to checkpointed values, in insertion order. */
  type Bundle = seq<(string, Checkpoint)>

  /** `action_space.nvec.shape[0]`: only a MultiDiscrete action space has `nvec`. */
  function SlateSize(actionSpace: Space): (r: Result<nat>)
    ensures r.Ok? <==> actionSpace.MultiDiscrete?
    ensures r.Ok? ==> r.value == |actionSpace.nvec|
    ensures r.Err? ==> r.error == AttributeError
  {
    if actionSpace.MultiDiscrete? then Ok(|actionSpace.nvec|) else Err(AttributeError)
  }

  const EpisodeKey: string := "episode_num"

  /** The episodic agent's bundle: its episode counter under `episode_num`. */
  function EpisodeBundle(n: int): (b: Bundle)
    ensures Keys(b) == [EpisodeKey]
  {
    [(EpisodeKey, CInt(n))]
  }

  /**
   * What the episodic agent's `unbundle` restores from a bundle: the counter
   * stored under `episode_num`, or nothing when the key is missing (or holds
   * something other than a counter).
   */
  function RestoredEpisode(b: Bundle): (r: Option<int>)
    ensures EpisodeKey !in Keys(b) ==> r == None
  {
    var v := Lookup(b, EpisodeKey);
    if v.Ok? && v.value.CInt? then Some(v.value.n) else None
  }

  /** Unbundling the agent's own bundle restores its counter. */
  lemma {:induction false} EpisodeRoundTrip(n: int)
    ensures RestoredEpisode(EpisodeBundle(n)) == Some(n)
  {
  }

  /** An episodic agent whose step is a fixed rule of the reward and the observation. */
  class PolicyAgent {
    const slateSize: nat
    const policy: StepRule
    var episodeNum: int

    /** A new agent has seen no episode. */
    constructor (slateSize: nat, policy: StepRule)
      ensures this.slateSize == slateSize && this.policy == policy
      ensures episodeNum == 0
    {
      this.slateSize := slateSize;
      this.policy := policy;
      episodeNum := 0;
    }

    method Step(reward: real, observation: Value) returns (r: Result<Slate>)
      ensures r == policy(reward, observation)
    {
      r := policy(reward, observation);
    }

    /** Counts the episode, then steps with reward 0. */
    method BeginEpisode(observation: Value) returns (r: Result<Slate>)
      modifies this
      ensures episodeNum == old(episodeNum) + 1
      ensures r == policy(0.0, observation)
    {
      episodeNum := episodeNum + 1;
      r := Step(0.0, observation);
    }

    /** Does nothing. */
    method EndEpisode(reward: real, observation: Value)
    {
    }

    method BundleAndCheckpoint() returns (b: Bundle)
      ensures b == EpisodeBundle(episodeNum)
    {
      b := [(EpisodeKey, CInt(episodeNum))];
    }

    /** Restores the counter when the bundle has one; otherwise reports failure and changes nothing. */
    method Unbundle(b: Bundle) returns (ok: bool)
      modifies this
      ensures ok == RestoredEpisode(b).Some?
      ensures episodeNum == if ok then RestoredEpisode(b).value else old(episodeNum)
    {
      if EpisodeKey !in Keys(b) {
        return false;
      }
      var v := Lookup(b, EpisodeKey);
      if v.Ok? && v.value.CInt? {
        episodeNum := v.value.n;
        ok := true;
      } else {
        ok := false;
      }
    }
  }

  /** `agent = ctor(action_space)`: fails when the action space has no slate size. */
  method NewPolicyAgent(actionSpace: Space, policy: StepRule) returns (r: Result<PolicyAgent>)
    ensures r.Ok? <==> actionSpace.MultiDiscrete?
    ensures r.Ok? ==> fresh(r.value) && r.value.episodeNum == 0 && r.value.policy == policy
    ensures r.Ok? ==> r.value.slateSize == |actionSpace.nvec|
  {
    var size :- SlateSize(actionSpace);
    var agent := new PolicyAgent(size, policy);
    return Ok(agent);
  }

  // ---------------------------------------------------------------------
  // Hierarchical agent layers: the base agents' bundles and episodes.
  // ---------------------------------------------------------------------

  const BaseKeyPrefix: string := "base_agent_bundle_"

  /** The key of the `i`-th base agent's bundle. */
  function BaseKey(i: nat): string
  {
    BaseKeyPrefix + NatToString(i)
  }

  /** Different base agents have different keys. */
  lemma {:induction false} BaseKeyInjective(i: nat, j: nat)
    requires BaseKey(i) == BaseKey(j)
    ensures i == j
  {
    assert IntToString(i) == BaseKey(i)[|BaseKeyPrefix|..];
    assert IntToString(j) == BaseKey(j)[|BaseKeyPrefix|..];
    IntToStringInjective(i, j);
  }

  /** The layer's bundle: the `i`-th base agent's bundle under `base_agent_bundle_i`. */
  function LayerBundle(bundles: seq<Bundle>): (b: Bundle)
    ensures |b| == |bundles|
    ensures forall i :: 0 <= i < |b| ==> b[i] == (BaseKey(i), CBundle(bundles[i]))
  {
    if bundles == [] then []
    else LayerBundle(bundles[..|bundles| - 1]) + [(BaseKey(|bundles| - 1), CBundle(bundles[|bundles| - 1]))]
  }

  /** The layer's bundle has exactly one key per base agent: `base_agent_bundle_i` for the `i`-th. */
  lemma {:induction false} LayerBundleKeys(bundles: seq<Bundle>)
    ensures Keys(LayerBundle(bundles)) == BaseKeys(|bundles|)
    ensures Distinct(Keys(LayerBundle(bundles)))
  {
    var ks := Keys(LayerBundle(bundles));
    assert ks == BaseKeys(|bundles|);
    BaseKeysDistinct(|bundles|);
  }

  lemma {:induction false} BaseKeysDistinct(n: nat)
    ensures Distinct(BaseKeys(n))
  {
    var ks := BaseKeys(n);
    forall i, j | 0 <= i < j < n
      ensures ks[i] != ks[j]
    {
      if ks[i] == ks[j] {
        BaseKeyInjective(i, j);
      }
    }
  }

  /** The `i`-th base agent's bundle is found under its key in the layer's bundle. */
  lemma {:induction false} LayerBundleLookup(bundles: seq<Bundle>, i: nat)
    requires i < |bundles|
    ensures Lookup(LayerBundle(bundles), BaseKey(i)) == Ok(CBundle(bundles[i]))
  {
    var b := LayerBundle(bundles);
    forall j | 0 <= j < i
      ensures b[j].0 != b[i].0
    {
      if b[j].0 == b[i].0 {
        BaseKeyInjective(i, j);
      }
    }
    LookupFirstOccurrence(b, i);
  }

  /** The episode counters of the base agents. */
  function EpisodeNums(bases: seq<PolicyAgent>): (nums: seq<int>)
    reads set a | a in bases
    ensures |nums| == |bases| && forall i :: 0 <= i < |bases| ==> nums[i] == bases[i].episodeNum
  {
    if bases == [] then [] else EpisodeNums(bases[..|bases| - 1]) + [bases[|bases| - 1].episodeNum]
  }

  /** The episodic bundles of agents with counters `nums`. */
  function EpisodeBundles(nums: seq<int>): (bs: seq<Bundle>)
    ensures |bs| == |nums| && forall i :: 0 <= i < |nums| ==> bs[i] == EpisodeBundle(nums[i])
  {
    if nums == [] then [] else EpisodeBundles(nums[..|nums| - 1]) + [EpisodeBundle(nums[|nums| - 1])]
  }

  /** The layer's `bundle_and_checkpoint` over episodic base agents. */
  method BundleLayer(bases: seq<PolicyAgent>) returns (b: Bundle)
    ensures b == LayerBundle(EpisodeBundles(EpisodeNums(bases)))
  {
    var keys := BaseKeys(|bases|);
    ghost var nums := EpisodeNums(bases);
    b := [];
    var i := 0;
    while i < |bases|
      invariant 0 <= i <= |bases| && |b| == i
      invariant forall j :: 0 <= j < i ==> b[j] == (keys[j], CBundle(EpisodeBundle(nums[j])))
    {
      var sub := bases[i].BundleAndCheckpoint();
      b := b + [(keys[i], CBundle(sub))];
      i := i + 1;
    }
    assert b == LayerBundle(EpisodeBundles(nums));
  }

  /** The keys of `n` base agents' bundles. */
  function BaseKeys(n: nat): (keys: seq<string>)
    ensures |keys| == n && forall i :: 0 <= i < n ==> keys[i] == BaseKey(i)
  {
    if n == 0 then [] else BaseKeys(n - 1) + [BaseKey(n - 1)]
  }

  /**
   * The bundle stored under `key`, when there is one (a stored value that
   * is not a dict is read as an empty one).
   */
  function SubBundle(b: Bundle, key: string): (sub: Option<Bundle>)
    ensures sub.None? <==> key !in Keys(b)
  {
    var v := Lookup(b, key);
    if v.Err? then None
    else if v.value.CBundle? then Some(v.value.entries)
    else Some([])
  }

  /**
   * The layer's `unbundle` from the `i`-th base agent on, over base agents
   * with counters `nums` whose bundles are stored under `keys`: the success
   * flag and the counters afterwards. A missing key stops it with `false`;
   * otherwise each base agent restores itself and the flags are and-ed.
   */
  function LayerRestore(b: Bundle, keys: seq<string>, nums: seq<int>, i: nat, success: bool): (r: (bool, seq<int>))
    requires |keys| == |nums| && i <= |nums|
    ensures |r.1| == |nums|
    ensures forall m :: 0 <= m < i ==> r.1[m] == nums[m]
    ensures r.0 ==> success
    decreases |nums| - i
  {
    if i == |nums| then (success, nums)
    else if keys[i] !in Keys(b) then (false, nums)
    else
      var step := RestoreAt(b, keys[i], nums, i);
      LayerRestore(b, keys, step.1, i + 1, success && step.0)
  }

  /**
   * The `i`-th base agent's `unbundle` of the bundle stored under `key`:
   * its result and the counters afterwards.
   */
  function RestoreAt(b: Bundle, key: string, nums: seq<int>, i: nat): (r: (bool, seq<int>))
    requires key in Keys(b) && i < |nums|
    ensures |r.1| == |nums| && r.1[..i] == nums[..i] && r.1[i + 1..] == nums[i + 1..]
    ensures r.0 == RestoredEpisode(SubBundle(b, key).value).Some?
    ensures r.0 ==> r.1[i] == RestoredEpisode(SubBundle(b, key).value).value
    ensures !r.0 ==> r.1 == nums
  {
    var got := RestoredEpisode(SubBundle(b, key).value);
    if got.Some? then (true, nums[i := got.value]) else (false, nums)
  }

  /** The bundle stores, under each base agent's key, an episodic bundle of its counter in `nums`. */
  ghost predicate StoresEpisodes(b: Bundle, keys: seq<string>, nums: seq<int>)
  {
    |keys| == |nums| && forall m :: 0 <= m < |keys| ==> SubBundle(b, keys[m]) == Some(EpisodeBundle(nums[m]))
  }

  /** Unbundling a bundle that stores every base agent's counter restores them all and succeeds. */
  lemma {:induction false} RestoresStored(b: Bundle, keys: seq<string>, nums: seq<int>, olds: seq<int>, i: nat)
    requires StoresEpisodes(b, keys, nums) && |olds| == |nums| && i <= |nums|
    requires forall m :: 0 <= m < i ==> olds[m] == nums[m]
    ensures LayerRestore(b, keys, olds, i, true) == (true, nums)
    decreases |nums| - i
  {
    if i == |nums| {
      assert olds == nums;
    } else {
      assert SubBundle(b, keys[i]) == Some(EpisodeBundle(nums[i]));
      EpisodeRoundTrip(nums[i]);
      RestoresStored(b, keys, nums, olds[i := nums[i]], i + 1);
    }
  }

  /** Unbundling the layer's own bundle restores every base agent and succeeds. */
  lemma {:induction false} LayerRoundTrip(nums: seq<int>, olds: seq<int>)
    requires |olds| == |nums|
    ensures LayerRestore(LayerBundle(EpisodeBundles(nums)), BaseKeys(|nums|), olds, 0, true) == (true, nums)
  {
    var b := LayerBundle(EpisodeBundles(nums));
    var keys := BaseKeys(|nums|);
    forall m | 0 <= m < |keys|
      ensures SubBundle(b, keys[m]) == Some(EpisodeBundle(nums[m]))
    {
      EpisodeSubBundle(nums, m);
    }
    RestoresStored(b, keys, nums, olds, 0);
  }

  /** The `i`-th base agent's bundle, as stored by the layer. */
  lemma {:induction false} EpisodeSubBundle(nums: seq<int>, i: nat)
    requires i < |nums|
    ensures SubBundle(LayerBundle(EpisodeBundles(nums)), BaseKeys(|nums|)[i]) == Some(EpisodeBundle(nums[i]))
  {
    var bundles := EpisodeBundles(nums);
    LayerBundleLookup(bundles, i);
    StoredSubBundle(LayerBundle(bundles), BaseKey(i), bundles[i]);
  }

  lemma {:induction false} StoredSubBundle(b: Bundle, key: string, sub: Bundle)
    requires Lookup(b, key) == Ok(CBundle(sub))
    ensures SubBundle(b, key) == Some(sub)
  {
  }

  /**
   * With the key of base agent `k` missing, unbundling fails, and base agent
   * `k` and every one after it keeps its counter.
   */
  lemma {:induction false} LayerStopsAtMissingKey(b: Bundle, keys: seq<string>, nums: seq<int>, i: nat, success: bool, k: nat)
    requires |keys| == |nums| && i <= k < |nums| && keys[k] !in Keys(b)
    ensures !LayerRestore(b, keys, nums, i, success).0
    ensures forall m :: k <= m < |nums| ==> LayerRestore(b, keys, nums, i, success).1[m] == nums[m]
    decreases |nums| - i
  {
    if keys[i] in Keys(b) {
      var step := RestoreAt(b, keys[i], nums, i);
      LayerStopsAtMissingKey(b, keys, step.1, i + 1, success && step.0, k);
    }
  }

  /** Every key from the `i`-th on is present, and every base agent there restores from its bundle. */
  ghost predicate AllPresent(b: Bundle, keys: seq<string>, i: nat)
  {
    forall m :: i <= m < |keys| ==> keys[m] in Keys(b)
  }

  ghost predicate AllRestore(b: Bundle, keys: seq<string>, i: nat)
    requires AllPresent(b, keys, i)
  {
    forall m :: i <= m < |keys| ==> RestoredEpisode(SubBundle(b, keys[m]).value).Some?
  }

  /**
   * With every key present, unbundling succeeds exactly when every base
   * agent's own unbundle does.
   */
  lemma {:induction false} LayerAndsResults(b: Bundle, keys: seq<string>, nums: seq<int>, i: nat, success: bool)
    requires |keys| == |nums| && i <= |nums| && AllPresent(b, keys, i)
    ensures LayerRestore(b, keys, nums, i, success).0 <==> success && AllRestore(b, keys, i)
    decreases |nums| - i
  {
    if i < |nums| {
      assert keys[i] in Keys(b);
      var step := RestoreAt(b, keys[i], nums, i);
      LayerRestoreStep(b, keys, nums, i, success);
      LayerAndsResults(b, keys, step.1, i + 1, success && step.0);
      assert AllRestore(b, keys, i) <==> step.0 && AllRestore(b, keys, i + 1);
    }
  }

  /** With the `i`-th key present, unbundling from `i` restores the `i`-th base agent and goes on. */
  lemma {:induction false} LayerRestoreStep(b: Bundle, keys: seq<string>, nums: seq<int>, i: nat, success: bool)
    requires |keys| == |nums| && i < |nums| && keys[i] in Keys(b)
    ensures var step := RestoreAt(b, keys[i], nums, i);
      LayerRestore(b, keys, nums, i, success) == LayerRestore(b, keys, step.1, i + 1, success && step.0)
  {
  }

  /** Restoring the `i`-th counter leaves every other counter as it was. */
  lemma {:induction false} RestoreAtElsewhere(b: Bundle, key: string, nums: seq<int>, i: nat)
    requires key in Keys(b) && i < |nums|
    ensures forall m :: 0 <= m < |nums| && m != i ==> RestoreAt(b, key, nums, i).1[m] == nums[m]
  {
    var r := RestoreAt(b, key, nums, i).1;
    forall m | 0 <= m < |nums| && m != i
      ensures r[m] == nums[m]
    {
      if m < i {
        assert r[..i][m] == nums[..i][m];
      } else {
        assert r[i + 1..][m - i - 1] == nums[i + 1..][m - i - 1];
      }
    }
  }

  /** The counters are `nums` when each base agent's counter is. */
  lemma {:induction false} EpisodeNumsAre(bases: seq<PolicyAgent>, nums: seq<int>)
    requires |nums| == |bases| && forall j :: 0 <= j < |bases| ==> bases[j].episodeNum == nums[j]
    ensures EpisodeNums(bases) == nums
  {
  }

  /** The layer's `unbundle` over distinct episodic base agents. */
  method UnbundleLayer(bases: seq<PolicyAgent>, b: Bundle) returns (ok: bool)
    requires Distinct(bases)
    modifies set a | a in bases
    ensures (ok, EpisodeNums(bases)) == LayerRestore(b, BaseKeys(|bases|), old(EpisodeNums(bases)), 0, true)
  {
    var keys := BaseKeys(|bases|);
    ghost var nums := EpisodeNums(bases);
    ghost var start := nums;
    var success := true;
    var i := 0;
    while i < |bases|
      invariant 0 <= i <= |bases| && |nums| == |bases|
      invariant forall j :: 0 <= j < |bases| ==> bases[j].episodeNum == nums[j]
      invariant LayerRestore(b, keys, nums, i, success) == LayerRestore(b, keys, start, 0, true)
    {
      if keys[i] !in Keys(b) {
        EpisodeNumsAre(bases, nums);
        return false;
      }
      ghost var step := RestoreAt(b, keys[i], nums, i);
      var v := Lookup(b, keys[i]);
      var entries := if v.Ok? && v.value.CBundle? then v.value.entries else [];
      assert entries == SubBundle(b, keys[i]).value;
      label before:
      var restored := bases[i].Unbundle(entries);
      assert restored == step.0 && bases[i].episodeNum == step.1[i];
      RestoreAtElsewhere(b, keys[i], nums, i);
      forall j | 0 <= j < |bases| && j != i
        ensures bases[j].episodeNum == step.1[j]
      {
        assert bases[j] != bases[i];
        assert bases[j].episodeNum == old@before(bases[j].episodeNum);
      }
      LayerRestoreStep(b, keys, nums, i, success);
      success := success && restored;
      nums := step.1;
      i := i + 1;
    }
    EpisodeNumsAre(bases, nums);
    ok := success;
  }

  /** The rules of the base agents. */
  function Rules(bases: seq<PolicyAgent>): (rules: seq<StepRule>)
    ensures |rules| == |bases| && forall i :: 0 <= i < |bases| ==> rules[i] == bases[i].policy
  {
    if bases == [] then [] else Rules(bases[..|bases| - 1]) + [bases[|bases| - 1].policy]
  }

  /**
   * The base agents' actions for one reward and observation, in order; the
   * first failing agent's error otherwise.
   */
  function Actions(rules: seq<StepRule>, reward: real, observation: Value): (r: Result<seq<Slate>>)
    ensures r.Ok? <==> forall i :: 0 <= i < |rules| ==> rules[i](reward, observation).Ok?
    ensures r.Ok? ==> |r.value| == |rules|
    ensures r.Ok? ==> forall i :: 0 <= i < |rules| ==> rules[i](reward, observation) == Ok(r.value[i])
  {
    if rules == [] then Ok([])
    else
      var a :- rules[0](reward, observation);
      var rest :- Actions(rules[1..], reward, observation);
      Ok([a] + rest)
  }

  /** How many base agents start their episode: all, or up to and including the first that fails. */
  function Started(rules: seq<StepRule>, observation: Value): (n: nat)
    ensures n <= |rules|
  {
    if rules == [] then 0
    else if rules[0](0.0, observation).Err? then 1
    else 1 + Started(rules[1..], observation)
  }

  /** Every base agent starts when none fails. */
  lemma {:induction false} NoneFails(rules: seq<StepRule>, observation: Value)
    requires forall j :: 0 <= j < |rules| ==> rules[j](0.0, observation).Ok?
    ensures Started(rules, observation) == |rules|
  {
    if rules != [] {
      NoneFails(rules[1..], observation);
    }
  }

  /**
   * When base agent `i` is the first to fail, the agents up to it have
   * started and its error is the result.
   */
  lemma {:induction false} FirstFailure(rules: seq<StepRule>, observation: Value, i: nat)
    requires i < |rules| && forall j :: 0 <= j < i ==> rules[j](0.0, observation).Ok?
    requires rules[i](0.0, observation).Err?
    ensures Actions(rules, 0.0, observation) == Err(rules[i](0.0, observation).error)
    ensures Started(rules, observation) == i + 1
  {
    if i > 0 {
      FirstFailure(rules[1..], observation, i - 1);
    }
  }

  /**
   * `[base_agent.begin_episode(observation) for base_agent in base_agents]`:
   * each base agent counts an episode and steps with reward 0, until one
   * fails.
   */
  method BeginEpisodes(bases: seq<PolicyAgent>, observation: Value) returns (r: Result<seq<Slate>>)
    requires Distinct(bases)
    modifies set a | a in bases
    ensures r == Actions(Rules(bases), 0.0, observation)
    ensures forall i :: 0 <= i < |bases| ==>
      bases[i].episodeNum == old(bases[i].episodeNum) + (if i < Started(Rules(bases), observation) then 1 else 0)
  {
    var rules := Rules(bases);
    var actions: seq<Slate> := [];
    var i := 0;
    while i < |bases|
      invariant 0 <= i <= |bases| && |actions| == i
      invariant forall j :: 0 <= j < i ==> rules[j](0.0, observation) == Ok(actions[j])
      invariant forall j :: 0 <= j < |bases| ==>
        bases[j].episodeNum == old(bases[j].episodeNum) + (if j < i then 1 else 0)
    {
      var a := bases[i].BeginEpisode(observation);
      if a.Err? {
        FirstFailure(rules, observation, i);
        return Err(a.error);
      }
      actions := actions + [a.value];
      i := i + 1;
    }
    NoneFails(rules, observation);
    assert Actions(rules, 0.0, observation).value == actions;
    r := Ok(actions);
  }
}
