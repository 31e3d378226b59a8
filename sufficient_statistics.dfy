// The sufficient-statistics layer of recsim/agents/layers/sufficient_statistics.py:
// a hierarchical agent layer with a single base agent. Before passing an
// observation down it updates statistics it keeps about the user, and it
// shows the base agent the observation with the user's part replaced by the
// raw user observation together with those statistics.
//
// What the statistics are, and how an observation updates them, belongs to
// the concrete layers (modules ClusterClickStatistics and
// FixedLengthHistory). This module holds what they share: the base agent's
// observation space, the augmented observation, and the step of the single
// base agent.
module SufficientStatistics {
  import opened Basics
  import opened Spaces
  import opened Agent

  const UserKey: string := "user"
  const RawKey: string := "raw_observation"
  const StatisticsKey: string := "sufficient_statistics"

  /** The user part the base agent sees: the raw user observation and the statistics. */
  function Wrapped(user: Value, statistics: Value): (v: Value)
    ensures Field(v, RawKey) == Ok(user) && Field(v, StatisticsKey) == Ok(statistics)
    ensures v.VDict? && Keys(v.entries) == [RawKey, StatisticsKey]
  {
    VDict([(RawKey, user), (StatisticsKey, statistics)])
  }

  /**
   * The base agent's observation space: a Dict (keys sorted, as gym sorts
   * them) of the document space, the response space and, for the user, a
   * Dict of the raw user space and the statistics space. The user, response
   * and document spaces are looked up in that order.
   */
  function AugmentedSpace(observationSpace: Space, statisticsSpace: Space): (r: Result<Space>)
    ensures r.Ok? <==>
      SpaceField(observationSpace, UserKey).Ok? && SpaceField(observationSpace, "response").Ok? &&
      SpaceField(observationSpace, "doc").Ok?
    ensures SpaceField(observationSpace, UserKey).Err? ==> r == Err(SpaceField(observationSpace, UserKey).error)
    ensures SpaceField(observationSpace, UserKey).Ok? && SpaceField(observationSpace, "response").Err? ==>
      r == Err(SpaceField(observationSpace, "response").error)
    ensures SpaceField(observationSpace, UserKey).Ok? && SpaceField(observationSpace, "response").Ok? ==>
      (SpaceField(observationSpace, "doc").Err? ==> r == Err(SpaceField(observationSpace, "doc").error))
    ensures r.Ok? ==> r.value.DictSpace? && Keys(r.value.fields) == ["doc", "response", UserKey]
    ensures r.Ok? ==> r.value.fields[0].1 == SpaceField(observationSpace, "doc").value
    ensures r.Ok? ==> r.value.fields[1].1 == SpaceField(observationSpace, "response").value
    ensures r.Ok? ==>
      r.value.fields[2].1 == DictSpace([(RawKey, SpaceField(observationSpace, UserKey).value), (StatisticsKey, statisticsSpace)])
  {
    var user :- SpaceField(observationSpace, UserKey);
    var response :- SpaceField(observationSpace, "response");
    var doc :- SpaceField(observationSpace, "doc");
    var fields := [("doc", doc), ("response", response), (UserKey, DictSpace([(RawKey, user), (StatisticsKey, statisticsSpace)]))];
    ThreeKeys(fields);
    Ok(DictSpace(fields))
  }

  lemma {:induction false} ThreeKeys<V>(fields: seq<(string, V)>)
    requires |fields| == 3
    ensures Keys(fields) == [fields[0].0, fields[1].0, fields[2].0]
  {
  }

  /** The entries with the value of every `user` entry replaced by `user`. */
  function ReplaceUser(entries: seq<(string, Value)>, user: Value): (r: seq<(string, Value)>)
    ensures |r| == |entries|
    ensures forall i :: 0 <= i < |entries| ==>
      r[i] == if entries[i].0 == UserKey then (UserKey, user) else entries[i]
  {
    seq(|entries|, i requires 0 <= i < |entries| => if entries[i].0 == UserKey then (UserKey, user) else entries[i])
  }

  /**
   * The observation `_preprocess_reward_observation` passes down once the
   * statistics are updated: a copy of the observation dict whose `user` entry
   * becomes the raw user observation wrapped with the statistics. Copying
   * the items of anything but a dict raises AttributeError; a dict without
   * a user entry raises KeyError.
   */
  function Augmented(observation: Value, statistics: Value): (r: Result<Value>)
    ensures r.Ok? <==> observation.VDict? && UserKey in Keys(observation.entries)
    ensures !observation.VDict? ==> r == Err(AttributeError)
    ensures observation.VDict? && UserKey !in Keys(observation.entries) ==> r == Err(KeyError)
    ensures r.Ok? ==> r.value.VDict? && Keys(r.value.entries) == Keys(observation.entries)
    ensures r.Ok? ==> Field(r.value, UserKey) == Ok(Wrapped(Field(observation, UserKey).value, statistics))
  {
    if !observation.VDict? then Err(AttributeError)
    else
      var user :- Lookup(observation.entries, UserKey);
      var entries := ReplaceUser(observation.entries, Wrapped(user, statistics));
      ReplaceUserKeepsKeys(observation.entries, Wrapped(user, statistics));
      Ok(VDict(entries))
  }

  lemma {:induction false} ReplaceUserKeepsKeys(entries: seq<(string, Value)>, user: Value)
    ensures Keys(ReplaceUser(entries, user)) == Keys(entries)
  {
    var r := ReplaceUser(entries, user);
    assert forall i :: 0 <= i < |entries| ==> Keys(r)[i] == r[i].0 == entries[i].0 == Keys(entries)[i];
  }

  /** Replacing the user entries leaves the lookup of every other key as it was. */
  lemma {:induction false} ReplaceUserKeepsOthers(entries: seq<(string, Value)>, user: Value, key: string)
    requires key != UserKey
    ensures Lookup(ReplaceUser(entries, user), key) == Lookup(entries, key)
  {
    if entries != [] {
      assert ReplaceUser(entries, user)[1..] == ReplaceUser(entries[1..], user);
      ReplaceUserKeepsOthers(entries[1..], user, key);
    }
  }

  /**
   * The base agent sees every part of the observation but the user's as it
   * was, and from the user's part it can read back the raw user observation
   * and the statistics.
   */
  lemma {:induction false} AugmentedObservation(observation: Value, statistics: Value, key: string)
    requires Augmented(observation, statistics).Ok?
    ensures key != UserKey ==> Field(Augmented(observation, statistics).value, key) == Field(observation, key)
    ensures Field(Field(Augmented(observation, statistics).value, UserKey).value, RawKey) == Field(observation, UserKey)
    ensures Field(Field(Augmented(observation, statistics).value, UserKey).value, StatisticsKey) == Ok(statistics)
  {
    if key != UserKey {
      ReplaceUserKeepsOthers(observation.entries, Wrapped(Field(observation, UserKey).value, statistics), key);
    }
  }

  /**
   * What the layer returns once its statistics are updated: the single base
   * agent's action for the unchanged reward and the augmented observation,
   * which `_postprocess_actions` passes on unchanged.
   */
  function Forwarded(policy: StepRule, reward: real, observation: Value, statistics: Value): (r: Result<Slate>)
    ensures Augmented(observation, statistics).Err? ==> r == Err(Augmented(observation, statistics).error)
    ensures Augmented(observation, statistics).Ok? ==> r == policy(reward, Augmented(observation, statistics).value)
  {
    var augmented :- Augmented(observation, statistics);
    policy(reward, augmented)
  }
}
