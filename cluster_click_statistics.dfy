// The cluster click-statistics layer of
// recsim/agents/layers/cluster_click_statistics.py: a sufficient-statistics
// layer whose statistics are, for every document cluster, how many of the
// user's responses concerned a document of that cluster (impressions) and
// how many of those were clicks.
module ClusterClickStatistics {
  import opened Basics
  import opened Spaces
  import opened Agent
  import opened SufficientStatistics

  const ClusterIdKey: string := "cluster_id"
  const ClickKey: string := "click"
  const ImpressionCountKey: string := "impression_count"
  const ClickCountKey: string := "click_count"

  // ---------------------------------------------------------------------
  // Construction: the number of clusters from the response space.
  // ---------------------------------------------------------------------

  /** `observation_space.spaces['response'].spaces[0]`: the space of one response. */
  function SingleResponseSpace(observationSpace: Space): (r: Result<Space>)
    ensures r.Ok? <==>
      SpaceField(observationSpace, "response").Ok? && SpaceField(observationSpace, "response").value.TupleSpace? &&
      SpaceField(observationSpace, "response").value.parts != []
    ensures r.Ok? ==> r.value == SpaceField(observationSpace, "response").value.parts[0]
  {
    var responses :- SpaceField(observationSpace, "response");
    match responses
    case TupleSpace(parts) => if parts == [] then Err(IndexError) else Ok(parts[0])
    // A Dict's parts are keyed by name, so `[0]` finds nothing.
    case DictSpace(_) => Err(KeyError)
    case _ => Err(AttributeError)
  }

  /**
   * The number of clusters a `cluster_id` space describes: `n` of a Discrete
   * space. A Box is refused however it is shaped: `len(high)` of a
   * 0-dimensional Box raises, a Box with more than one entry is refused
   * outright, and a one-entry Box's `high` is an array, which cannot serve
   * as the length of the count vectors. Any other space is refused.
   */
  function ClusterCount(clusterSpace: Space): (r: Result<nat>)
    ensures r.Ok? <==> clusterSpace.Discrete?
    ensures r.Ok? ==> r.value == clusterSpace.n
    ensures clusterSpace.Box? && clusterSpace.shape != [] && clusterSpace.shape[0] > 1 ==> r == Err(ValueError)
  {
    match clusterSpace
    case Discrete(n) => Ok(n)
    case Box(shape, _, _) =>
      if shape == [] then Err(TypeError)
      else if shape[0] > 1 then Err(ValueError)
      else Err(TypeError)
    case _ => Err(ValueError)
  }

  /**
   * The constructor's checks, in order: a response space must be a Tuple of
   * Dicts whose first part has a `cluster_id` entry describing the clusters
   * and a `click` entry; the result is the number of clusters.
   */
  function NumClusters(observationSpace: Space): (r: Result<nat>)
    ensures r.Ok? <==>
      SingleResponseSpace(observationSpace).Ok? && SingleResponseSpace(observationSpace).value.DictSpace? &&
      ClusterIdKey in Keys(SingleResponseSpace(observationSpace).value.fields) &&
      ClickKey in Keys(SingleResponseSpace(observationSpace).value.fields) &&
      Lookup(SingleResponseSpace(observationSpace).value.fields, ClusterIdKey).value.Discrete?
    ensures r.Ok? ==> r.value == Lookup(SingleResponseSpace(observationSpace).value.fields, ClusterIdKey).value.n
    ensures SingleResponseSpace(observationSpace).Ok? && SingleResponseSpace(observationSpace).value.TupleSpace? ==>
      r == Err(ValueError)
  {
    var single :- SingleResponseSpace(observationSpace);
    var hasCluster :- HasPart(single, ClusterIdKey);
    if !hasCluster then Err(ValueError)
    else
      var n :- ClusterCount(Lookup(single.fields, ClusterIdKey).value);
      if ClickKey !in Keys(single.fields) then Err(ValueError) else Ok(n)
  }

  /** The statistics space: a non-negative, unbounded count per cluster, for clicks and for impressions. */
  function StatisticsSpace(n: nat): (s: Space)
    ensures s.DictSpace? && Keys(s.fields) == [ClickCountKey, ImpressionCountKey]
    ensures forall i :: 0 <= i < 2 ==> s.fields[i].1 == Box([n], Repeat(Bounded(0.0), n), Repeat(Unbounded(true), n))
  {
    var counts := Box([n], Repeat(Bounded(0.0), n), Repeat(Unbounded(true), n));
    var fields := [(ClickCountKey, counts), (ImpressionCountKey, counts)];
    assert Keys(fields) == [ClickCountKey, ImpressionCountKey];
    DictSpace(fields)
  }

  // ---------------------------------------------------------------------
  // The statistics and their update.
  // ---------------------------------------------------------------------

  /** The counters: for every cluster, its impressions and its clicks. */
  datatype Counts = Counts(impressions: seq<nat>, clicks: seq<nat>)

  /** Counters for `n` clusters, never more clicks than impressions. */
  predicate WellFormed(c: Counts, n: nat)
  {
    |c.impressions| == n && |c.clicks| == n && forall i :: 0 <= i < n ==> c.clicks[i] <= c.impressions[i]
  }

  /** The first update's counters: `[0] * num_clusters` for both. */
  function Zeros(n: nat): (c: Counts)
    ensures WellFormed(c, n)
    ensures forall i :: 0 <= i < n ==> c.impressions[i] == 0 && c.clicks[i] == 0
  {
    Counts(Repeat(0, n), Repeat(0, n))
  }

  /** The counter position of a response: `int(response['cluster_id'])` as a Python list index. */
  function ResponseCluster(n: nat, response: Value): (r: Result<nat>)
    ensures r.Ok? ==> r.value < n
  {
    var id :- Field(response, ClusterIdKey);
    var cluster :- AsInt(id);
    PyPosition(n, cluster)
  }

  /** Whether a response was clicked: its `click` entry is truthy. */
  predicate Clicked(response: Value)
  {
    Field(response, ClickKey).Ok? && Truthy(Field(response, ClickKey).value) == Ok(true)
  }

  /**
   * The error `if response['click']:` raises, if any: a missing `click`
   * entry, or an array entry whose truth value is ambiguous.
   */
  function ClickError(response: Value): Option<Error>
  {
    var click := Field(response, ClickKey);
    if click.Err? then Some(click.error)
    else if Truthy(click.value).Err? then Some(Truthy(click.value).error)
    else None
  }

  /**
   * One response's effect: an impression for its cluster, then a click for
   * it when the response was clicked. A response without a `click` entry,
   * or with a `click` array of several elements, raises after its impression
   * is counted. The error raised, if any, comes first.
   */
  function RecordResponse(c: Counts, response: Value): (r: (Option<Error>, Counts))
    requires |c.clicks| == |c.impressions|
    ensures |r.1.impressions| == |c.impressions| && |r.1.clicks| == |c.clicks|
    ensures WellFormed(c, |c.impressions|) ==> WellFormed(r.1, |c.impressions|)
    ensures ResponseCluster(|c.impressions|, response).Err? ==>
      r == (Some(ResponseCluster(|c.impressions|, response).error), c)
    ensures ResponseCluster(|c.impressions|, response).Ok? ==>
      var p := ResponseCluster(|c.impressions|, response).value;
      && r.0 == ClickError(response)
      && r.1.impressions == c.impressions[p := c.impressions[p] + 1]
      && r.1.clicks == c.clicks[p := c.clicks[p] + Indicator(Clicked(response))]
  {
    var p := ResponseCluster(|c.impressions|, response);
    if p.Err? then (Some(p.error), c)
    else
      var shown := c.impressions[p.value := c.impressions[p.value] + 1];
      if !Clicked(response) then
        UnchangedUpdate(c.clicks, p.value);
        (ClickError(response), Counts(shown, c.clicks))
      else (None, Counts(shown, c.clicks[p.value := c.clicks[p.value] + 1]))
  }

  lemma {:induction false} UnchangedUpdate(xs: seq<nat>, p: nat)
    requires p < |xs|
    ensures xs[p := xs[p] + 0] == xs
  {
  }

  /** The responses recorded in order, stopping at the first that raises. */
  function Recorded(c: Counts, responses: seq<Value>): (r: (Option<Error>, Counts))
    requires |c.clicks| == |c.impressions|
    ensures |r.1.impressions| == |c.impressions| && |r.1.clicks| == |c.clicks|
    ensures WellFormed(c, |c.impressions|) ==> WellFormed(r.1, |c.impressions|)
  {
    if responses == [] then (None, c)
    else
      var before := Recorded(c, responses[..|responses| - 1]);
      if before.0.Some? then before else RecordResponse(before.1, responses[|responses| - 1])
  }

  /** Recording one more response after a prefix. */
  lemma {:induction false} RecordedNext(c: Counts, responses: seq<Value>, i: nat)
    requires |c.clicks| == |c.impressions| && i < |responses|
    ensures Recorded(c, responses[..i + 1]) ==
      if Recorded(c, responses[..i]).0.Some? then Recorded(c, responses[..i])
      else RecordResponse(Recorded(c, responses[..i]).1, responses[i])
  {
    assert responses[..i + 1][..i] == responses[..i];
  }

  /** Once a response raises, the later ones are not recorded. */
  lemma {:induction false} RecordedStops(c: Counts, responses: seq<Value>, i: nat)
    requires |c.clicks| == |c.impressions| && i <= |responses|
    requires Recorded(c, responses[..i]).0.Some?
    ensures Recorded(c, responses) == Recorded(c, responses[..i])
  {
    if i < |responses| {
      var init := responses[..|responses| - 1];
      assert init[..i] == responses[..i];
      RecordedStops(c, init, i);
      assert Recorded(c, init).0.Some?;
    } else {
      assert responses[..i] == responses;
    }
  }

  /** How many of the responses concern cluster position `p`. */
  function Impressions(n: nat, responses: seq<Value>, p: nat): nat
  {
    if responses == [] then 0
    else
      var last := responses[|responses| - 1];
      Impressions(n, responses[..|responses| - 1], p) + Indicator(ResponseCluster(n, last) == Ok(p))
  }

  /** How many of the responses concern cluster position `p` and were clicked. */
  function Clicks(n: nat, responses: seq<Value>, p: nat): nat
  {
    if responses == [] then 0
    else
      var last := responses[|responses| - 1];
      Clicks(n, responses[..|responses| - 1], p) + Indicator(ResponseCluster(n, last) == Ok(p) && Clicked(last))
  }

  /**
   * When every response is recorded, each cluster has gained one impression
   * per response about it and one click per clicked response about it.
   */
  lemma {:induction false} RecordedCounts(c: Counts, responses: seq<Value>, p: nat)
    requires |c.clicks| == |c.impressions| && p < |c.impressions|
    requires Recorded(c, responses).0.None?
    ensures Recorded(c, responses).1.impressions[p] == c.impressions[p] + Impressions(|c.impressions|, responses, p)
    ensures Recorded(c, responses).1.clicks[p] == c.clicks[p] + Clicks(|c.impressions|, responses, p)
  {
    if responses != [] {
      var init := responses[..|responses| - 1];
      var before := Recorded(c, init);
      assert before.0.None?;
      RecordedCounts(c, init, p);
      var last := responses[|responses| - 1];
      var q := ResponseCluster(|c.impressions|, last);
      assert q.Ok?;
    }
  }

  /**
   * The layer's `_update`: counters start at zero on the first update (even
   * when the observation then turns out to be unusable); a `None` response
   * changes nothing; otherwise each response of the tuple is recorded.
   * Iterating anything but a tuple of responses raises TypeError.
   */
  function Updated(n: nat, s: Option<Counts>, observation: Value): (r: (Option<Error>, Counts))
    requires s.Some? ==> WellFormed(s.value, n)
    ensures WellFormed(r.1, n)
  {
    var c := if s.None? then Zeros(n) else s.value;
    var response := Field(observation, "response");
    if response.Err? then (Some(response.error), c)
    else if response.value.VNone? then (None, c)
    else if !response.value.VTuple? then (Some(TypeError), c)
    else Recorded(c, response.value.elems)
  }

  /** A `None` response leaves the counters as they were, or at zero on the first update. */
  lemma {:induction false} NoResponseKeepsCounts(n: nat, s: Option<Counts>, observation: Value)
    requires s.Some? ==> WellFormed(s.value, n)
    requires Field(observation, "response") == Ok(VNone)
    ensures Updated(n, s, observation) == (None, if s.None? then Zeros(n) else s.value)
  {
  }

  /** The reals of a count vector, as `np.array` of it holds them. */
  function Reals(xs: seq<nat>): (r: seq<real>)
    ensures |r| == |xs| && forall i :: 0 <= i < |xs| ==> r[i] == xs[i] as real
  {
    seq(|xs|, i requires 0 <= i < |xs| => xs[i] as real)
  }

  /** `_create_observation`: copies of both count vectors, under their names. */
  function Observed(c: Counts): (v: Value)
    ensures Field(v, ImpressionCountKey) == Ok(VArray(Reals(c.impressions)))
    ensures Field(v, ClickCountKey) == Ok(VArray(Reals(c.clicks)))
  {
    VDict([(ImpressionCountKey, VArray(Reals(c.impressions))), (ClickCountKey, VArray(Reals(c.clicks)))])
  }

  /**
   * The layer's step: the statistics are updated, then the base agent acts
   * on the augmented observation. The new statistics are kept even when
   * the step raises.
   */
  function StepOutcome(n: nat, policy: StepRule, s: Option<Counts>, reward: real, observation: Value)
    : (r: (Result<Slate>, Counts))
    requires s.Some? ==> WellFormed(s.value, n)
    ensures r.1 == Updated(n, s, observation).1
    ensures Updated(n, s, observation).0.Some? ==> r.0 == Err(Updated(n, s, observation).0.value)
    ensures Updated(n, s, observation).0.None? ==> r.0 == Forwarded(policy, reward, observation, Observed(r.1))
  {
    var (err, c) := Updated(n, s, observation);
    if err.Some? then (Err(err.value), c) else (Forwarded(policy, reward, observation, Observed(c)), c)
  }

  /** A `ClusterClickStatsLayer` over one base agent. */
  class ClusterClickStatsLayer {
    const numClusters: nat
    const base: PolicyAgent
    const observationSpace: Space
    /** The observation space the base agent was built for. */
    const baseObservationSpace: Space
    /** `_sufficient_statistics`: None until the first update of an episode. */
    var statistics: Option<Counts>

    predicate Valid()
      reads this
    {
      statistics.Some? ==> WellFormed(statistics.value, numClusters)
    }

    constructor (numClusters: nat, base: PolicyAgent, observationSpace: Space, baseObservationSpace: Space)
      ensures Valid() && statistics == None
      ensures this.numClusters == numClusters && this.base == base
      ensures this.observationSpace == observationSpace && this.baseObservationSpace == baseObservationSpace
    {
      this.numClusters := numClusters;
      this.base := base;
      this.observationSpace := observationSpace;
      this.baseObservationSpace := baseObservationSpace;
      statistics := None;
    }

    /** `_update`: counts every response of the observation, one at a time. */
    method Update(observation: Value) returns (err: Option<Error>)
      requires Valid()
      modifies this
      ensures Valid()
      ensures (err, statistics) == (Updated(numClusters, old(statistics), observation).0,
                                    Some(Updated(numClusters, old(statistics), observation).1))
    {
      if statistics.None? {
        statistics := Some(Counts(Repeat(0, numClusters), Repeat(0, numClusters)));
      }
      var response := Field(observation, "response");
      if response.Err? {
        return Some(response.error);
      }
      if response.value.VNone? {
        return None;
      }
      if !response.value.VTuple? {
        return Some(TypeError);
      }
      err := RecordAll(response.value.elems);
    }

    /** The loop of `_update`: records the responses in order until one raises. */
    method RecordAll(responses: seq<Value>) returns (err: Option<Error>)
      requires statistics.Some? && WellFormed(statistics.value, numClusters)
      modifies this
      ensures statistics.Some? && (err, statistics.value) == Recorded(old(statistics.value), responses)
    {
      ghost var start := statistics.value;
      var i := 0;
      while i < |responses|
        invariant 0 <= i <= |responses|
        invariant statistics.Some? && Recorded(start, responses[..i]) == (None, statistics.value)
        invariant WellFormed(statistics.value, numClusters)
      {
        RecordedNext(start, responses, i);
        err := Record(responses[i]);
        if err.Some? {
          RecordedStops(start, responses, i + 1);
          return;
        }
        i := i + 1;
      }
      assert responses[..i] == responses;
      err := None;
    }

    /** One iteration of `_update`'s loop: an impression for the response's cluster, and a click if clicked. */
    method Record(response: Value) returns (err: Option<Error>)
      requires statistics.Some? && WellFormed(statistics.value, numClusters)
      modifies this
      ensures statistics.Some? && (err, statistics.value) == RecordResponse(old(statistics.value), response)
    {
      var counts := statistics.value;
      var p := ResponseCluster(numClusters, response);
      if p.Err? {
        return Some(p.error);
      }
      var impressions := counts.impressions[p.value := counts.impressions[p.value] + 1];
      statistics := Some(Counts(impressions, counts.clicks));
      var click := Field(response, ClickKey);
      if click.Err? {
        return Some(click.error);
      }
      var clicked := Truthy(click.value);
      if clicked.Err? {
        return Some(clicked.error);
      }
      if clicked.value {
        statistics := Some(Counts(impressions, counts.clicks[p.value := counts.clicks[p.value] + 1]));
      }
      err := None;
    }

    /** `_create_observation`: the statistics as the base agent sees them. */
    method CreateObservation() returns (v: Value)
      requires statistics.Some?
      ensures v == Observed(statistics.value)
    {
      var counts := statistics.value;
      v := VDict([(ImpressionCountKey, VArray(Reals(counts.impressions))), (ClickCountKey, VArray(Reals(counts.clicks)))]);
    }

    /** Updates the statistics, then passes the augmented observation to the base agent. */
    method Step(reward: real, observation: Value) returns (r: Result<Slate>)
      requires Valid()
      modifies this
      ensures Valid()
      ensures (r, statistics) == (StepOutcome(numClusters, base.policy, old(statistics), reward, observation).0,
                                  Some(StepOutcome(numClusters, base.policy, old(statistics), reward, observation).1))
    {
      var err := Update(observation);
      if err.Some? {
        return Err(err.value);
      }
      var statisticsObservation := CreateObservation();
      var augmented :- Augmented(observation, statisticsObservation);
      r := base.Step(reward, augmented);
    }

    /**
     * With an observation, updates the statistics and starts the base
     * agent's episode on the augmented observation; without one, starts it
     * on None.
     */
    method BeginEpisode(observation: Value) returns (r: Result<Slate>)
      requires Valid()
      modifies this, base
      ensures Valid()
      ensures observation.VNone? ==>
        r == base.policy(0.0, VNone) && statistics == old(statistics) && base.episodeNum == old(base.episodeNum) + 1
      ensures !observation.VNone? ==>
        var (err, c) := Updated(numClusters, old(statistics), observation);
        var augmented := Augmented(observation, Observed(c));
        && statistics == Some(c)
        && r == (if err.Some? then Err(err.value) else if augmented.Err? then Err(augmented.error)
                 else base.policy(0.0, augmented.value))
        && base.episodeNum == old(base.episodeNum) + (if err.None? && augmented.Ok? then 1 else 0)
    {
      var passed := observation;
      if !observation.VNone? {
        var err := Update(observation);
        if err.Some? {
          return Err(err.value);
        }
        var statisticsObservation := CreateObservation();
        var augmented :- Augmented(observation, statisticsObservation);
        passed := augmented;
      }
      r := base.BeginEpisode(passed);
    }

    /**
     * Updates the statistics with the last observation (the base agent's
     * `end_episode` does nothing), then forgets them for the next user. An
     * update that raises leaves the statistics in place.
     */
    method EndEpisode(reward: real, observation: Value) returns (err: Option<Error>)
      requires Valid()
      modifies this
      ensures Valid()
      ensures var (e, c) := Updated(numClusters, old(statistics), observation);
        var augmented := Augmented(observation, Observed(c));
        && err == (if e.Some? then e else if augmented.Err? then Some(augmented.error) else None)
        && statistics == (if err.Some? then Some(c) else None)
    {
      err := Update(observation);
      if err.Some? {
        return;
      }
      var statisticsObservation := CreateObservation();
      var augmented := Augmented(observation, statisticsObservation);
      if augmented.Err? {
        return Some(augmented.error);
      }
      base.EndEpisode(reward, augmented.value);
      statistics := None;
    }

    /** The layer's bundle: the base agent's bundle under `base_agent_bundle_0`. */
    method BundleAndCheckpoint() returns (b: Bundle)
      ensures b == LayerBundle([EpisodeBundle(base.episodeNum)])
    {
      b := BundleLayer([base]);
    }

    /** Restores the base agent from its bundle; false when the bundle lacks it. */
    method Unbundle(b: Bundle) returns (ok: bool)
      modifies base
      ensures (ok, [base.episodeNum]) == LayerRestore(b, BaseKeys(1), [old(base.episodeNum)], 0, true)
    {
      ok := UnbundleLayer([base], b);
    }
  }

  /**
   * `ClusterClickStatsLayer(base_agent_ctor, observation_space, action_space)`:
   * the cluster checks, then the slate size of the action space, then the
   * augmented observation space; the base agent is built for that space.
   */
  method NewClusterClickStatsLayer(observationSpace: Space, actionSpace: Space, policy: StepRule)
    returns (r: Result<ClusterClickStatsLayer>)
    ensures r.Ok? <==>
      NumClusters(observationSpace).Ok? && actionSpace.MultiDiscrete? &&
      AugmentedSpace(observationSpace, StatisticsSpace(NumClusters(observationSpace).value)).Ok?
    ensures NumClusters(observationSpace).Err? ==> r == Err(NumClusters(observationSpace).error)
    ensures NumClusters(observationSpace).Ok? && !actionSpace.MultiDiscrete? ==> r == Err(AttributeError)
    ensures r.Ok? ==> fresh(r.value) && fresh(r.value.base) && r.value.Valid() && r.value.statistics == None
    ensures r.Ok? ==> r.value.numClusters == NumClusters(observationSpace).value
    ensures r.Ok? ==> r.value.base.policy == policy && r.value.base.episodeNum == 0
    ensures r.Ok? ==>
      r.value.baseObservationSpace == AugmentedSpace(observationSpace, StatisticsSpace(r.value.numClusters)).value
  {
    var n :- NumClusters(observationSpace);
    var slateSize :- SlateSize(actionSpace);
    var baseSpace :- AugmentedSpace(observationSpace, StatisticsSpace(n));
    var base := new PolicyAgent(slateSize, policy);
    var layer := new ClusterClickStatsLayer(n, base, observationSpace, baseSpace);
    return Ok(layer);
  }
}
