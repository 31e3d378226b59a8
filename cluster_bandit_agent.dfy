// The cluster bandit agent of recsim/agents/cluster_bandit_agent.py: a
// click-bandit layer with one arm per document cluster (topic). The arm of
// cluster i is a greedy agent that recommends the documents of cluster i,
// best quality first.
module ClusterBanditAgent {
  import opened Basics
  import opened Spaces
  import opened Agent
  import opened Ranking
  import opened BanditAlgorithms
  import opened AbstractClickBandit
  import SufficientStatistics
  import ClusterClickStatistics

  const ClusterIdKey: string := "cluster_id"
  const QualityKey: string := "quality"

  // ---------------------------------------------------------------------
  // The greedy agent of one cluster.
  // ---------------------------------------------------------------------

  /**
   * `doc['cluster_id'] == cluster_id`. A number compares by value, and a
   * one-element vector by its element; a vector of several elements has no
   * truth value (ValueError); a value of any other kind is never equal.
   */
  function InCluster(doc: Value, id: int): (r: Result<bool>)
    ensures Field(doc, ClusterIdKey).Err? ==> r == Err(Field(doc, ClusterIdKey).error)
    ensures Field(doc, ClusterIdKey) == Ok(VInt(id)) ==> r == Ok(true)
  {
    var cluster :- Field(doc, ClusterIdKey);
    match cluster
    case VInt(i) => Ok(i == id)
    case VReal(x) => Ok(x == id as real)
    case VArray(xs) => if |xs| == 0 then Ok(false) else if |xs| == 1 then Ok(xs[0] == id as real) else Err(ValueError)
    case _ => Ok(false)
  }

  /** `doc['quality']`, a number. */
  function Quality(doc: Value): (r: Result<real>)
  {
    var quality :- Field(doc, QualityKey);
    AsReal(quality)
  }

  /**
   * What the loop reads of one document: whether it belongs to the cluster
   * and, only if it does, its quality.
   */
  function Reading(doc: Value, id: int): (r: Result<Option<real>>)
    ensures r.Ok? <==> InCluster(doc, id).Ok? && (InCluster(doc, id).value ==> Quality(doc).Ok?)
    ensures r.Ok? && r.value.Some? <==> InCluster(doc, id) == Ok(true) && Quality(doc).Ok?
    ensures r.Ok? && r.value.Some? ==> r.value.value == Quality(doc).value
  {
    var inCluster :- InCluster(doc, id);
    if !inCluster then Ok(None)
    else
      var quality :- Quality(doc);
      Ok(Some(quality))
  }

  /** What the loop reads of every document, in order. */
  function Readings(entries: seq<(string, Value)>, id: int): (rs: seq<Result<Option<real>>>)
    ensures |rs| == |entries| && forall i :: 0 <= i < |entries| ==> rs[i] == Reading(entries[i].1, id)
  {
    seq(|entries|, i requires 0 <= i < |entries| => Reading(entries[i].1, id))
  }

  /** The document at position `p` belongs to the cluster and has a quality. */
  predicate Member(readings: seq<Result<Option<real>>>, p: int)
  {
    0 <= p < |readings| && readings[p].Ok? && readings[p].value.Some?
  }

  /** The positions are in increasing order. */
  predicate Increasing(positions: seq<nat>)
  {
    forall i, j :: 0 <= i < j < |positions| ==> positions[i] < positions[j]
  }

  /**
   * The loop of `GreedyClusterAgent.step` over the first `n` documents: the
   * positions of the documents of the cluster, in order, and their
   * qualities. The first reading that raises stops it.
   */
  function Matching(readings: seq<Result<Option<real>>>, n: nat): (r: Result<(seq<nat>, seq<real>)>)
    requires n <= |readings|
    ensures r.Ok? ==> |r.value.0| == |r.value.1|
  {
    if n == 0 then Ok(([], []))
    else
      var before := Matching(readings, n - 1);
      var reading := readings[n - 1];
      if before.Err? then before
      else if reading.Err? then Err(reading.error)
      else if reading.value.None? then before
      else Ok((before.value.0 + [n - 1], before.value.1 + [reading.value.value]))
  }

  /**
   * The loop finds, in order, exactly the positions of the documents of the
   * cluster, and their qualities.
   */
  lemma {:induction false} MatchingFinds(readings: seq<Result<Option<real>>>, n: nat)
    requires n <= |readings| && Matching(readings, n).Ok?
    ensures var m := Matching(readings, n).value;
      && Increasing(m.0)
      && (forall j :: 0 <= j < |m.0| ==> m.0[j] < n && Member(readings, m.0[j]))
      && (forall j :: 0 <= j < |m.0| ==> m.1[j] == readings[m.0[j]].value.value)
      && (forall p: nat :: p < n && Member(readings, p) ==> p in m.0)
      && (forall p :: 0 <= p < n ==> readings[p].Ok?)
  {
    if n > 0 {
      var before := Matching(readings, n - 1);
      assert before.Ok?;
      MatchingFinds(readings, n - 1);
      var m := Matching(readings, n).value;
      if readings[n - 1].value.Some? {
        assert m == (before.value.0 + [n - 1], before.value.1 + [readings[n - 1].value.value]);
      } else {
        assert m == before.value;
      }
    }
  }

  /** Once a reading raises, the loop raises that error. */
  lemma {:induction false} MatchingStops(readings: seq<Result<Option<real>>>, i: nat, n: nat)
    requires i <= n <= |readings| && Matching(readings, i).Err?
    ensures Matching(readings, n) == Matching(readings, i)
    decreases n - i
  {
    if n > i {
      MatchingStops(readings, i, n - 1);
    }
  }

  /** The positions in the given order. */
  function Picked(positions: seq<nat>, order: seq<nat>): (r: seq<nat>)
    requires InRange(order, |positions|)
    ensures |r| == |order| && forall i :: 0 <= i < |order| ==> r[i] == positions[order[i]]
  {
    seq(|order|, i requires 0 <= i < |order| => positions[order[i]])
  }

  /**
   * The documents the readings put in the cluster, highest quality first
   * (`np.argsort(quality)[::-1]`), or `[]` when there are none.
   */
  function Chosen(readings: seq<Result<Option<real>>>): (slate: Slate)
    requires Matching(readings, |readings|).Ok?
    ensures forall i :: 0 <= i < |slate| ==> Member(readings, slate[i])
  {
    var matching := Matching(readings, |readings|).value;
    MatchingFinds(readings, |readings|);
    if matching.0 == [] then [] else Picked(matching.0, ReversedArgsort(matching.1))
  }

  /**
   * `GreedyClusterAgent.step`: the documents of cluster `id`, highest quality
   * first. Only a dict of documents has `values()`.
   */
  function ClusterSlate(id: int, observation: Value): (r: Result<Slate>)
    ensures r.Ok? ==> Field(observation, "doc").Ok? && Field(observation, "doc").value.VDict?
    ensures r.Ok? ==> var readings := Readings(Field(observation, "doc").value.entries, id);
      Matching(readings, |readings|).Ok? && r.value == Chosen(readings)
  {
    var docs :- Field(observation, "doc");
    if !docs.VDict? then Err(AttributeError)
    else
      var readings := Readings(docs.entries, id);
      var matching :- Matching(readings, |readings|);
      Ok(Chosen(readings))
  }

  /**
   * The positions picked in the reversed argsort of their qualities: each
   * position once, by non-increasing quality.
   */
  lemma {:induction false} PickedRanks(positions: seq<nat>, qualities: seq<real>)
    requires |positions| == |qualities| && Increasing(positions)
    ensures var order := ReversedArgsort(qualities);
      var slate := Picked(positions, order);
      && (forall j :: 0 <= j < |positions| ==> positions[j] in slate)
      && (forall p :: p in slate ==> p in positions)
      && (forall i, j :: 0 <= i < j < |slate| ==> slate[i] != slate[j])
      && (forall i, j :: 0 <= i < j < |slate| ==> qualities[order[i]] >= qualities[order[j]])
  {
    var order := ReversedArgsort(qualities);
    var slate := Picked(positions, order);
    ReversedArgsortIsSortedPermutation(qualities);
    forall j | 0 <= j < |positions|
      ensures positions[j] in slate
    {
      assert j in order;
      var i :| 0 <= i < |order| && order[i] == j;
      assert slate[i] == positions[j];
    }
    forall i, j | 0 <= i < j < |slate|
      ensures slate[i] != slate[j]
    {
      assert order[i] != order[j];
    }
  }

  /**
   * The readings are all taken, and the chosen documents are exactly those
   * the readings put in the cluster, each once, by non-increasing quality.
   */
  lemma {:induction false} ChosenRanks(readings: seq<Result<Option<real>>>)
    requires Matching(readings, |readings|).Ok?
    ensures forall p :: 0 <= p < |readings| ==> readings[p].Ok?
    ensures forall p: nat :: Member(readings, p) ==> p in Chosen(readings)
    ensures forall i, j :: 0 <= i < j < |Chosen(readings)| ==> Chosen(readings)[i] != Chosen(readings)[j]
    ensures forall i, j :: 0 <= i < j < |Chosen(readings)| ==>
      readings[Chosen(readings)[i]].value.value >= readings[Chosen(readings)[j]].value.value
  {
    var matching := Matching(readings, |readings|).value;
    MatchingFinds(readings, |readings|);
    if matching.0 != [] {
      var order := ReversedArgsort(matching.1);
      var slate := Picked(matching.0, order);
      assert Chosen(readings) == slate;
      PickedRanks(matching.0, matching.1);
      forall i, j | 0 <= i < j < |slate|
        ensures readings[slate[i]].value.value >= readings[slate[j]].value.value
      {
        assert slate[i] == matching.0[order[i]] && slate[j] == matching.0[order[j]];
      }
    }
  }

  /**
   * The greedy agent recommends exactly the documents of its cluster, each
   * once, by non-increasing quality; none when the cluster has no document.
   * Every document of the cluster has a quality when the step succeeds.
   */
  lemma {:induction false} ClusterSlateRanks(id: int, observation: Value)
    requires ClusterSlate(id, observation).Ok?
    ensures Field(observation, "doc").Ok? && Field(observation, "doc").value.VDict?
    ensures var entries := Field(observation, "doc").value.entries;
      forall p :: 0 <= p < |entries| && InCluster(entries[p].1, id) == Ok(true) ==> Quality(entries[p].1).Ok?
    ensures var entries := Field(observation, "doc").value.entries;
      var slate := ClusterSlate(id, observation).value;
      && (forall p: int :: p in slate <==> 0 <= p < |entries| && InCluster(entries[p].1, id) == Ok(true))
      && (forall i, j :: 0 <= i < j < |slate| ==> slate[i] != slate[j])
      && (forall i, j :: 0 <= i < j < |slate| ==>
            Quality(entries[slate[i]].1).value >= Quality(entries[slate[j]].1).value)
  {
    var entries := Field(observation, "doc").value.entries;
    var readings := Readings(entries, id);
    ChosenRanks(readings);
    forall p | 0 <= p < |entries|
      ensures Member(readings, p) <==> InCluster(entries[p].1, id) == Ok(true)
    {
      assert readings[p] == Reading(entries[p].1, id);
    }
  }

  /** One more document read by the loop. */
  lemma {:induction false} MatchingNext(readings: seq<Result<Option<real>>>, i: nat, before: (seq<nat>, seq<real>))
    requires i < |readings| && Matching(readings, i) == Ok(before)
    ensures Matching(readings, i + 1) ==
      if readings[i].Err? then Err(readings[i].error)
      else if readings[i].value.None? then Ok(before)
      else Ok((before.0 + [i], before.1 + [readings[i].value.value]))
  {
  }

  /** `GreedyClusterAgent.step`: collects the cluster's documents and their qualities, then ranks them. */
  method GreedyClusterStep(id: int, observation: Value) returns (r: Result<Slate>)
    ensures r == ClusterSlate(id, observation)
  {
    var docs :- Field(observation, "doc");
    if !docs.VDict? {
      return Err(AttributeError);
    }
    var entries := docs.entries;
    ghost var readings := Readings(entries, id);
    var myDocs: seq<nat> := [];
    var myQuality: seq<real> := [];
    var i := 0;
    while i < |entries|
      invariant 0 <= i <= |entries|
      invariant Matching(readings, i) == Ok((myDocs, myQuality))
    {
      MatchingNext(readings, i, (myDocs, myQuality));
      var inCluster := InCluster(entries[i].1, id);
      if inCluster.Err? {
        MatchingStops(readings, i + 1, |entries|);
        return Err(inCluster.error);
      }
      if inCluster.value {
        var quality := Quality(entries[i].1);
        if quality.Err? {
          MatchingStops(readings, i + 1, |entries|);
          return Err(quality.error);
        }
        myDocs := myDocs + [i];
        myQuality := myQuality + [quality.value];
      }
      i := i + 1;
    }
    if myDocs == [] {
      return Ok([]);
    }
    var sortedIndices := ReversedArgsort(myQuality);
    r := Ok(Picked(myDocs, sortedIndices));
    assert Chosen(readings) == Picked(myDocs, sortedIndices);
  }

  /** The step rule of the greedy agent of cluster `id`; it ignores the reward. */
  function ClusterRule(id: int): StepRule
  {
    (reward: real, observation: Value) => ClusterSlate(id, observation)
  }

  /** One greedy agent per cluster, the one at position i for cluster i. */
  function ClusterRules(numTopics: nat): (rules: seq<StepRule>)
    ensures |rules| == numTopics && forall i :: 0 <= i < numTopics ==> rules[i] == ClusterRule(i)
  {
    seq(numTopics, i requires 0 <= i < numTopics => ClusterRule(i))
  }

  // ---------------------------------------------------------------------
  // The bandit agent.
  // ---------------------------------------------------------------------

  /**
   * The number of topics: the size of the `cluster_id` space of the first
   * document space. The document spaces must be a Dict with at least one
   * document, and the cluster id space must be Discrete (only it has `n`).
   */
  function NumTopics(observationSpace: Space): (r: Result<nat>)
    ensures r.Ok? ==> SpaceField(observationSpace, "doc").Ok? && SpaceField(observationSpace, "doc").value.DictSpace?
    ensures r.Ok? ==> var docs := SpaceField(observationSpace, "doc").value.fields;
      docs != [] && SpaceField(docs[0].1, ClusterIdKey) == Ok(Discrete(r.value))
  {
    var docSpace :- SpaceField(observationSpace, "doc");
    if !docSpace.DictSpace? then Err(AttributeError)
    else if docSpace.fields == [] then Err(IndexError)
    else
      var cluster :- SpaceField(docSpace.fields[0].1, ClusterIdKey);
      if cluster.Discrete? then Ok(cluster.n) else Err(AttributeError)
  }

  /**
   * `ClusterBanditAgent(observation_space, action_space, alg_ctor,
   * ci_scaling, random_seed)`: the number of topics is read first, then the
   * click-bandit layer is built, as its code is written, with one greedy
   * cluster agent per topic. Count spaces of any length are accepted, since
   * that constructor never raises its ValueErrors; stacked on the
   * click-statistics layer they have one entry per topic anyway
   * (`StatisticsLayerPassesChecks`).
   */
  method NewClusterBanditAgent(observationSpace: Space, actionSpace: Space, kind: Kind, ciScaling: real, randomSeed: int)
    returns (r: Result<AbstractClickBanditLayer>)
    ensures NumTopics(observationSpace).Err? ==> r == Err(NumTopics(observationSpace).error)
    ensures r.Ok? <==> (NumTopics(observationSpace).Ok? && actionSpace.MultiDiscrete? &&
                        CountShapes(observationSpace).Ok?)
    ensures r.Ok? ==> fresh(r.value) && r.value.Valid()
    ensures r.Ok? ==> r.value.config == BanditConfig(|actionSpace.nvec|, kind, ciScaling, randomSeed)
    ensures r.Ok? ==> |r.value.bases| == NumTopics(observationSpace).value
    ensures r.Ok? ==> forall i :: 0 <= i < |r.value.bases| ==> r.value.bases[i].policy == ClusterRule(i)
  {
    var numTopics :- NumTopics(observationSpace);
    r := NewAbstractClickBanditLayerAsWritten(observationSpace, actionSpace, ClusterRules(numTopics), kind, ciScaling, randomSeed);
    if r.Ok? {
      assert Rules(r.value.bases) == ClusterRules(numTopics);
    }
  }

  /**
   * Stacked on a click-statistics layer over as many clusters as there are
   * topics, the bandit's constructor checks pass: that layer's augmented
   * space holds impression and click counts with one entry per cluster.
   */
  lemma {:induction false} StatisticsLayerPassesChecks(observationSpace: Space, n: nat)
    requires SufficientStatistics.AugmentedSpace(observationSpace, ClusterClickStatistics.StatisticsSpace(n)).Ok?
    ensures CheckedCountShapes(
      SufficientStatistics.AugmentedSpace(observationSpace, ClusterClickStatistics.StatisticsSpace(n)).value, n) == Ok(())
  {
    var statistics := ClusterClickStatistics.StatisticsSpace(n);
    AugmentedUserHoldsStatistics(observationSpace, statistics);
    StatisticsHoldCounts(n);
  }

  /** The augmented space's user part is a Dict that holds the statistics space. */
  lemma {:induction false} AugmentedUserHoldsStatistics(observationSpace: Space, statistics: Space)
    requires SufficientStatistics.AugmentedSpace(observationSpace, statistics).Ok?
    ensures var space := SufficientStatistics.AugmentedSpace(observationSpace, statistics).value;
      && SpaceField(space, "user").Ok?
      && HasPart(SpaceField(space, "user").value, "sufficient_statistics") == Ok(true)
      && SpaceField(SpaceField(space, "user").value, "sufficient_statistics") == Ok(statistics)
  {
    var space := SufficientStatistics.AugmentedSpace(observationSpace, statistics).value;
    var user := space.fields[2].1;
    assert Lookup(space.fields, "user") == Ok(user);
    assert Lookup(user.fields, "sufficient_statistics") == Ok(statistics);
  }

  /** The click-statistics space has both count spaces, each with `n` entries. */
  lemma {:induction false} StatisticsHoldCounts(n: nat)
    ensures var statistics := ClusterClickStatistics.StatisticsSpace(n);
      && HasPart(statistics, ImpressionCountKey) == Ok(true)
      && HasPart(statistics, ClickCountKey) == Ok(true)
      && SpaceField(statistics, ImpressionCountKey).Ok? && Leading(SpaceField(statistics, ImpressionCountKey).value) == Ok(n)
      && SpaceField(statistics, ClickCountKey).Ok? && Leading(SpaceField(statistics, ClickCountKey).value) == Ok(n)
  {
    var statistics := ClusterClickStatistics.StatisticsSpace(n);
    assert Lookup(statistics.fields, ImpressionCountKey) == Ok(statistics.fields[1].1);
    assert Lookup(statistics.fields, ClickCountKey) == Ok(statistics.fields[0].1);
  }

  /**
   * Stacked on the click-statistics layer, the bandit reads back exactly
   * the impression and click counts that layer keeps.
   */
  lemma {:induction false} CountsReachBandit(observation: Value, c: ClusterClickStatistics.Counts)
    requires SufficientStatistics.Augmented(observation, ClusterClickStatistics.Observed(c)).Ok?
    ensures var augmented := SufficientStatistics.Augmented(observation, ClusterClickStatistics.Observed(c)).value;
      && Statistic(augmented, ImpressionCountKey) == Ok(ClusterClickStatistics.Reals(c.impressions))
      && Statistic(augmented, ClickCountKey) == Ok(ClusterClickStatistics.Reals(c.clicks))
  {
    SufficientStatistics.AugmentedObservation(observation, ClusterClickStatistics.Observed(c), "doc");
  }
}
