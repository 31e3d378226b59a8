// The fixed-length history layer of
// recsim/agents/layers/fixed_length_history.py: a sufficient-statistics
// layer whose statistics are the last `history_length` observations (or the
// chosen parts of them), the newest first, with None where the episode has
// not yet produced that many.
module FixedLengthHistory {
  import opened Basics
  import opened Spaces
  import opened Agent
  import opened SufficientStatistics

  /** The place of a feature in the order user, response, doc. */
  function FeatureOrder(feature: string): nat
  {
    if feature == "user" then 0 else if feature == "response" then 1 else 2
  }

  /** The features the layer remembers: user, response and doc, in that order, as the flags select them. */
  function Features(rememberUser: bool, rememberResponse: bool, rememberDoc: bool): (fs: seq<string>)
    ensures |fs| <= 3
  {
    (if rememberUser then ["user"] else []) +
    (if rememberResponse then ["response"] else []) +
    (if rememberDoc then ["doc"] else [])
  }

  /** A feature is remembered exactly when its flag is set, and the features keep the order user, response, doc. */
  lemma {:induction false} FeaturesSelected(rememberUser: bool, rememberResponse: bool, rememberDoc: bool)
    ensures var fs := Features(rememberUser, rememberResponse, rememberDoc);
      && ("user" in fs <==> rememberUser)
      && ("response" in fs <==> rememberResponse)
      && ("doc" in fs <==> rememberDoc)
      && (forall f :: f in fs ==> f == "user" || f == "response" || f == "doc")
      && (forall i, j :: 0 <= i < j < |fs| ==> FeatureOrder(fs[i]) < FeatureOrder(fs[j]))
  {
  }

  /** Features in that order are distinct. */
  lemma {:induction false} FeaturesDistinct(rememberUser: bool, rememberResponse: bool, rememberDoc: bool)
    ensures Distinct(Features(rememberUser, rememberResponse, rememberDoc))
  {
    var fs := Features(rememberUser, rememberResponse, rememberDoc);
    FeaturesSelected(rememberUser, rememberResponse, rememberDoc);
    forall i, j | 0 <= i < j < |fs|
      ensures fs[i] != fs[j]
    {
      assert FeatureOrder(fs[i]) < FeatureOrder(fs[j]);
    }
  }

  /** `space[key]` of a gym space: only a Dict can be subscripted by a name. */
  function SpaceItem(space: Space, key: string): (r: Result<Space>)
    ensures space.DictSpace? ==> r == Lookup(space.fields, key)
    ensures !space.DictSpace? ==> r == Err(TypeError)
  {
    if space.DictSpace? then Lookup(space.fields, key) else Err(TypeError)
  }

  /** The spaces of the features, looked up in order; the first missing one's error otherwise. */
  function FeatureSpaces(observationSpace: Space, features: seq<string>): (r: Result<seq<(string, Space)>>)
    ensures r.Ok? <==> forall i :: 0 <= i < |features| ==> SpaceItem(observationSpace, features[i]).Ok?
    ensures r.Ok? ==> |r.value| == |features| && forall i :: 0 <= i < |features| ==>
      r.value[i] == (features[i], SpaceItem(observationSpace, features[i]).value)
  {
    if features == [] then Ok([])
    else
      var first :- SpaceItem(observationSpace, features[0]);
      var rest :- FeatureSpaces(observationSpace, features[1..]);
      Ok([(features[0], first)] + rest)
  }

  /**
   * The statistics space: a Tuple of `history_length` copies of a Dict of
   * the remembered features' spaces, its keys sorted as gym sorts them
   * (doc, response, user: the reverse of the order they are remembered in).
   */
  function StatisticsSpace(observationSpace: Space, features: seq<string>, historyLength: int): (r: Result<Space>)
    ensures r.Ok? <==> FeatureSpaces(observationSpace, features).Ok?
    ensures r.Ok? ==> r.value.TupleSpace? && |r.value.parts| == (if historyLength > 0 then historyLength else 0)
    ensures r.Ok? ==> forall i :: 0 <= i < |r.value.parts| ==>
      r.value.parts[i] == DictSpace(Reversed(FeatureSpaces(observationSpace, features).value))
  {
    var remembered :- FeatureSpaces(observationSpace, features);
    Ok(TupleSpace(Repeat(DictSpace(Reversed(remembered)), if historyLength > 0 then historyLength else 0)))
  }

  // ---------------------------------------------------------------------
  // The history buffer.
  // ---------------------------------------------------------------------

  /**
   * `{feature: observation[feature] for feature in features}`: the
   * remembered part of an observation, a dict of the features in order.
   */
  function Remembered(observation: Value, features: seq<string>): (r: Result<Value>)
    ensures r.Ok? <==> forall i :: 0 <= i < |features| ==> Field(observation, features[i]).Ok?
    ensures r.Ok? ==> r.value.VDict? && |r.value.entries| == |features| && forall i :: 0 <= i < |features| ==>
      r.value.entries[i] == (features[i], Field(observation, features[i]).value)
  {
    if features == [] then Ok(VDict([]))
    else
      var first :- Field(observation, features[0]);
      var rest :- Remembered(observation, features[1..]);
      Ok(VDict([(features[0], first)] + rest.entries))
  }

  /** The remembered part holds every remembered feature as the observation had it. */
  lemma {:induction false} RememberedFeatures(observation: Value, features: seq<string>, i: nat)
    requires Distinct(features) && i < |features| && Remembered(observation, features).Ok?
    ensures Keys(Remembered(observation, features).value.entries) == features
    ensures Field(Remembered(observation, features).value, features[i]) == Field(observation, features[i])
  {
    var entries := Remembered(observation, features).value.entries;
    assert Keys(entries) == features;
    LookupFirstOccurrence(entries, i);
  }

  /** `buffer[:-1]`: everything but the last element; nothing of an empty buffer. */
  function DropLast(buffer: seq<Value>): (r: seq<Value>)
    ensures |r| == if buffer == [] then 0 else |buffer| - 1
    ensures forall i :: 0 <= i < |r| ==> r[i] == buffer[i]
  {
    if buffer == [] then [] else buffer[..|buffer| - 1]
  }

  /**
   * `[entry] + buffer[:-1]`: the new entry first and the others one place
   * further back, the oldest dropped. A non-empty buffer keeps its length.
   */
  function Shifted(buffer: seq<Value>, entry: Value): (r: seq<Value>)
    ensures buffer != [] ==> |r| == |buffer|
    ensures buffer == [] ==> r == [entry]
    ensures r[0] == entry && forall i :: 1 <= i < |r| ==> r[i] == buffer[i - 1]
  {
    [entry] + DropLast(buffer)
  }

  /** The first update's buffer: `history_length * [None]`. */
  function Empty(historyLength: int): (b: seq<Value>)
    ensures |b| == (if historyLength > 0 then historyLength else 0)
    ensures forall i :: 0 <= i < |b| ==> b[i] == VNone
  {
    Repeat(VNone, if historyLength > 0 then historyLength else 0)
  }

  /** The buffer after the entries of an episode, oldest first, have been shifted in. */
  function History(historyLength: int, entries: seq<Value>): (b: seq<Value>)
  {
    if entries == [] then Empty(historyLength)
    else Shifted(History(historyLength, entries[..|entries| - 1]), entries[|entries| - 1])
  }

  /**
   * The buffer holds the last `history_length` entries, the newest at index
   * 0, and None in the places the episode has not yet filled.
   */
  lemma {:induction false} HistoryHoldsLatest(historyLength: int, entries: seq<Value>)
    requires historyLength > 0
    ensures |History(historyLength, entries)| == historyLength
    ensures forall i :: 0 <= i < historyLength ==>
      History(historyLength, entries)[i] == if i < |entries| then entries[|entries| - 1 - i] else VNone
  {
    if entries != [] {
      var init := entries[..|entries| - 1];
      HistoryHoldsLatest(historyLength, init);
      var b := History(historyLength, entries);
      forall i | 0 <= i < historyLength
        ensures b[i] == if i < |entries| then entries[|entries| - 1 - i] else VNone
      {
        if i > 0 {
          assert b[i] == History(historyLength, init)[i - 1];
          if i < |entries| {
            assert init[|init| - 1 - (i - 1)] == entries[|entries| - 1 - i];
          }
        }
      }
    }
  }

  /** With a history length that is not positive, the buffer holds just the newest entry. */
  lemma {:induction false} ShortHistory(historyLength: int, entries: seq<Value>)
    requires historyLength <= 0 && entries != []
    ensures History(historyLength, entries) == [entries[|entries| - 1]]
  {
    if |entries| > 1 {
      ShortHistory(historyLength, entries[..|entries| - 1]);
    }
  }

  /**
   * The layer's `_update`: the buffer starts as Nones on the first update
   * (even when the observation then turns out to be unusable), then the
   * remembered part of the observation is shifted in.
   */
  function Updated(features: seq<string>, historyLength: int, s: Option<seq<Value>>, observation: Value)
    : (r: (Option<Error>, seq<Value>))
    ensures s.None? && historyLength > 0 ==> |r.1| == historyLength
    ensures s.Some? && s.value != [] ==> |r.1| == |s.value|
    ensures Remembered(observation, features).Ok? <==> r.0.None?
    ensures r.0.None? ==> r.1 == Shifted(if s.None? then Empty(historyLength) else s.value, Remembered(observation, features).value)
  {
    var buffer := if s.None? then Empty(historyLength) else s.value;
    var entry := Remembered(observation, features);
    if entry.Err? then (Some(entry.error), buffer) else (None, Shifted(buffer, entry.value))
  }

  /** The episode's updates, oldest first, build the history of their remembered parts. */
  lemma {:induction false} UpdatesBuildHistory(features: seq<string>, historyLength: int, observations: seq<Value>)
    requires observations != []
    requires forall i :: 0 <= i < |observations| ==> Remembered(observations[i], features).Ok?
    ensures Replayed(features, historyLength, observations) ==
      Some(History(historyLength, RememberedAll(features, observations)))
  {
    if |observations| > 1 {
      UpdatesBuildHistory(features, historyLength, observations[..|observations| - 1]);
      assert RememberedAll(features, observations)[..|observations| - 1] ==
        RememberedAll(features, observations[..|observations| - 1]);
    }
  }

  /** The statistics after updating with each observation in turn from the start of an episode. */
  function Replayed(features: seq<string>, historyLength: int, observations: seq<Value>): Option<seq<Value>>
  {
    if observations == [] then None
    else Some(Updated(features, historyLength, Replayed(features, historyLength, observations[..|observations| - 1]),
                      observations[|observations| - 1]).1)
  }

  /** The remembered parts of observations that all have the remembered features. */
  function RememberedAll(features: seq<string>, observations: seq<Value>): (r: seq<Value>)
    requires forall i :: 0 <= i < |observations| ==> Remembered(observations[i], features).Ok?
    ensures |r| == |observations| && forall i :: 0 <= i < |observations| ==>
      r[i] == Remembered(observations[i], features).value
  {
    seq(|observations|, i requires 0 <= i < |observations| => Remembered(observations[i], features).value)
  }

  /** `_create_observation`: the buffer as a tuple. */
  function Observed(buffer: seq<Value>): (v: Value)
    ensures Item(v, 0) == (if buffer == [] then Err(IndexError) else Ok(buffer[0]))
  {
    VTuple(buffer)
  }

  /**
   * The layer's step: the buffer is updated, then the base agent acts on the
   * augmented observation. The updated buffer is kept even when the step
   * raises.
   */
  function StepOutcome(features: seq<string>, historyLength: int, policy: StepRule, s: Option<seq<Value>>,
                       reward: real, observation: Value): (r: (Result<Slate>, seq<Value>))
    ensures r.1 == Updated(features, historyLength, s, observation).1
    ensures Updated(features, historyLength, s, observation).0.Some? ==>
      r.0 == Err(Updated(features, historyLength, s, observation).0.value)
    ensures Updated(features, historyLength, s, observation).0.None? ==>
      r.0 == Forwarded(policy, reward, observation, Observed(r.1))
  {
    var (err, buffer) := Updated(features, historyLength, s, observation);
    if err.Some? then (Err(err.value), buffer) else (Forwarded(policy, reward, observation, Observed(buffer)), buffer)
  }

  /** A `FixedLengthHistoryLayer` over one base agent. */
  class FixedLengthHistoryLayer {
    const historyLength: int
    const features: seq<string>
    const base: PolicyAgent
    const observationSpace: Space
    /** The observation space the base agent was built for. */
    const baseObservationSpace: Space
    /** `_sufficient_statistics`: None until the first update of an episode, then the buffer. */
    var statistics: Option<seq<Value>>

    /** A positive history length is the length of the buffer. */
    predicate Valid()
      reads this
    {
      historyLength > 0 && statistics.Some? ==> |statistics.value| == historyLength
    }

    constructor (historyLength: int, features: seq<string>, base: PolicyAgent, observationSpace: Space,
                 baseObservationSpace: Space)
      ensures Valid() && statistics == None
      ensures this.historyLength == historyLength && this.features == features && this.base == base
      ensures this.observationSpace == observationSpace && this.baseObservationSpace == baseObservationSpace
    {
      this.historyLength := historyLength;
      this.features := features;
      this.base := base;
      this.observationSpace := observationSpace;
      this.baseObservationSpace := baseObservationSpace;
      statistics := None;
    }

    /** `_update`: shifts the remembered part of the observation into the buffer. */
    method Update(observation: Value) returns (err: Option<Error>)
      requires Valid()
      modifies this
      ensures Valid()
      ensures (err, statistics) == (Updated(features, historyLength, old(statistics), observation).0,
                                    Some(Updated(features, historyLength, old(statistics), observation).1))
    {
      if statistics.None? {
        statistics := Some(Repeat(VNone, if historyLength > 0 then historyLength else 0));
      }
      var entry := Remembered(observation, features);
      if entry.Err? {
        return Some(entry.error);
      }
      var buffer := statistics.value;
      statistics := Some([entry.value] + (if buffer == [] then [] else buffer[..|buffer| - 1]));
      err := None;
    }

    /** `_create_observation`: the buffer as the base agent sees it. */
    method CreateObservation() returns (v: Value)
      requires statistics.Some?
      ensures v == Observed(statistics.value)
    {
      v := VTuple(statistics.value);
    }

    /** Updates the buffer, then passes the augmented observation to the base agent. */
    method Step(reward: real, observation: Value) returns (r: Result<Slate>)
      requires Valid()
      modifies this
      ensures Valid()
      ensures (r, statistics) ==
        (StepOutcome(features, historyLength, base.policy, old(statistics), reward, observation).0,
         Some(StepOutcome(features, historyLength, base.policy, old(statistics), reward, observation).1))
    {
      var err := Update(observation);
      if err.Some? {
        return Err(err.value);
      }
      var statisticsObservation := CreateObservation();
      var augmented :- Augmented(observation, statisticsObservation);
      r := base.Step(reward, augmented);
    }

    /**
     * With an observation, updates the buffer and starts the base agent's
     * episode on the augmented observation; without one, starts it on None.
     */
    method BeginEpisode(observation: Value) returns (r: Result<Slate>)
      requires Valid()
      modifies this, base
      ensures Valid()
      ensures observation.VNone? ==>
        r == base.policy(0.0, VNone) && statistics == old(statistics) && base.episodeNum == old(base.episodeNum) + 1
      ensures !observation.VNone? ==>
        var (err, buffer) := Updated(features, historyLength, old(statistics), observation);
        var augmented := Augmented(observation, Observed(buffer));
        && statistics == Some(buffer)
        && r == (if err.Some? then Err(err.value) else if augmented.Err? then Err(augmented.error)
                 else base.policy(0.0, augmented.value))
        && base.episodeNum == old(base.episodeNum) + (if err.None? && augmented.Ok? then 1 else 0)
    {
      var passed := observation;
      if !observation.VNone? {
        var err := Update(observation);
        if err.Some? {
          return Err(err.value);
        }
        var statisticsObservation := CreateObservation();
        var augmented :- Augmented(observation, statisticsObservation);
        passed := augmented;
      }
      r := base.BeginEpisode(passed);
    }

    /**
     * Updates the buffer with the last observation (the base agent's
     * `end_episode` does nothing), then forgets it for the next user. An
     * update that raises leaves the buffer in place.
     */
    method EndEpisode(reward: real, observation: Value) returns (err: Option<Error>)
      requires Valid()
      modifies this
      ensures Valid()
      ensures var (e, buffer) := Updated(features, historyLength, old(statistics), observation);
        var augmented := Augmented(observation, Observed(buffer));
        && err == (if e.Some? then e else if augmented.Err? then Some(augmented.error) else None)
        && statistics == (if err.Some? then Some(buffer) else None)
    {
      err := Update(observation);
      if err.Some? {
        return;
      }
      var statisticsObservation := CreateObservation();
      var augmented := Augmented(observation, statisticsObservation);
      if augmented.Err? {
        return Some(augmented.error);
      }
      base.EndEpisode(reward, augmented.value);
      statistics := None;
    }

    /** The layer's bundle: the base agent's bundle under `base_agent_bundle_0`. */
    method BundleAndCheckpoint() returns (b: Bundle)
      ensures b == LayerBundle([EpisodeBundle(base.episodeNum)])
    {
      b := BundleLayer([base]);
    }

    /** Restores the base agent from its bundle; false when the bundle lacks it. */
    method Unbundle(b: Bundle) returns (ok: bool)
      modifies base
      ensures (ok, [base.episodeNum]) == LayerRestore(b, BaseKeys(1), [old(base.episodeNum)], 0, true)
    {
      ok := UnbundleLayer([base], b);
    }
  }

  /**
   * `FixedLengthHistoryLayer(base_agent_ctor, observation_space, action_space,
   * history_length, remember_user, remember_response, remember_doc)`: the
   * statistics space from the remembered features, then the slate size of
   * the action space, then the augmented observation space; the base agent
   * is built for that space.
   */
  method NewFixedLengthHistoryLayer(observationSpace: Space, actionSpace: Space, policy: StepRule, historyLength: int,
                                    rememberUser: bool, rememberResponse: bool, rememberDoc: bool)
    returns (r: Result<FixedLengthHistoryLayer>)
    ensures var features := Features(rememberUser, rememberResponse, rememberDoc);
      var statisticsSpace := StatisticsSpace(observationSpace, features, historyLength);
      && (r.Ok? <==> statisticsSpace.Ok? && actionSpace.MultiDiscrete? &&
                     AugmentedSpace(observationSpace, statisticsSpace.value).Ok?)
      && (statisticsSpace.Err? ==> r == Err(statisticsSpace.error))
      && (statisticsSpace.Ok? && !actionSpace.MultiDiscrete? ==> r == Err(AttributeError))
      && (r.Ok? ==> r.value.features == features &&
                    r.value.baseObservationSpace == AugmentedSpace(observationSpace, statisticsSpace.value).value)
    ensures r.Ok? ==> fresh(r.value) && fresh(r.value.base) && r.value.Valid() && r.value.statistics == None
    ensures r.Ok? ==> r.value.historyLength == historyLength
    ensures r.Ok? ==> r.value.base.policy == policy && r.value.base.episodeNum == 0
  {
    var features := Features(rememberUser, rememberResponse, rememberDoc);
    var statisticsSpace :- StatisticsSpace(observationSpace, features, historyLength);
    var slateSize :- SlateSize(actionSpace);
    var baseSpace :- AugmentedSpace(observationSpace, statisticsSpace);
    var base := new PolicyAgent(slateSize, policy);
    var layer := new FixedLengthHistoryLayer(historyLength, features, base, observationSpace, baseSpace);
    return Ok(layer);
  }
}
