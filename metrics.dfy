// The video-cluster metrics of recsim/utils.py: per-step aggregation of the
// responses into a metrics dict, and the summaries written from it. The
// metrics dict is the `collections.defaultdict(float)` the gym adapter
// creates, so a missing key reads as 0.0 and `+=` on it starts from 0.0.
module Metrics {
  import opened Basics
  import opened Decimal

  /** The fields of one response observation that the aggregator reads. */
  datatype ClusterResponse = ClusterResponse(click: bool, quality: real, clusterId: int)

  const ClusterPrefix: string := "cluster_watch_count_cluster_"
  const NoClickKey: string := "cluster_watch_count_no_click"
  const FractionPrefix: string := "cluster_watch_count_frac/cluster_"
  const NoClickFractionTag: string := "cluster_watch_count_frac/no_click"

  /** `'cluster_watch_count_cluster_%d' % cluster_id`. */
  function ClusterKey(c: int): (k: string)
    ensures ClusterPrefix <= k && |k| > |ClusterPrefix|
  {
    ClusterPrefix + IntToString(c)
  }

  /** Keys written by the aggregator: four fixed names and every cluster key. */
  predicate IsMetricKey(k: string)
  {
    k == "impression" || k == "click" || k == "quality" || k == NoClickKey || ClusterPrefix <= k
  }

  /** A snapshot of a `defaultdict(float)`: values by key and the keys in insertion order. */
  datatype Counters = Counters(values: map<string, real>, order: seq<string>)
  {
    ghost predicate Valid()
    {
      Distinct(order) && forall k :: k in values <==> k in order
    }
  }

  /** `d[key]`: the stored value, or 0.0 for a missing key. */
  function Read(d: Counters, key: string): real
  {
    if key in d.values then d.values[key] else 0.0
  }

  /**
   * `d[key] += delta`. A missing key is first inserted, at the end of the
   * order, with 0.0; `Added(d, key, 0.0)` is what a plain read does.
   */
  function Added(d: Counters, key: string, delta: real): (e: Counters)
    requires d.Valid()
    ensures e.Valid() && key in e.values
    ensures Read(e, key) == Read(d, key) + delta
    ensures e.order == if key in d.values then d.order else d.order + [key]
    ensures forall k :: k != key ==> (k in e.values <==> k in d.values) && Read(e, k) == Read(d, k)
  {
    Counters(d.values[key := Read(d, key) + delta], if key in d.values then d.order else d.order + [key])
  }

  /** The mutable metrics dict. */
  class MetricDict {
    var values: map<string, real>
    var order: seq<string>

    function Contents(): Counters
      reads this
    {
      Counters(values, order)
    }

    /** `collections.defaultdict(float)`. */
    constructor ()
      ensures Contents() == Counters(map[], [])
    {
      values := map[];
      order := [];
    }

    /** `metrics[key] += delta`. */
    method Increment(key: string, delta: real)
      requires Contents().Valid()
      modifies this
      ensures Contents() == Added(old(Contents()), key, delta)
    {
      if key !in values {
        order := order + [key];
      }
      values := values[key := Read(Contents(), key) + delta];
    }
  }

  // ---------------------------------------------------------------------------
  // Aggregation

  /** Whether some response was clicked. */
  predicate AnyClicked(rs: seq<ClusterResponse>)
  {
    exists i :: 0 <= i < |rs| && rs[i].click
  }

  /** Some response was clicked exactly when the click count is positive. */
  lemma {:induction false} ClickedIffCounted(rs: seq<ClusterResponse>)
    ensures AnyClicked(rs) <==> ClickCount(rs) > 0
    decreases |rs|
  {
    if rs != [] {
      var init := rs[..|rs| - 1];
      ClickedIffCounted(init);
      if AnyClicked(rs) && !rs[|rs| - 1].click {
        var j :| 0 <= j < |rs| && rs[j].click;
        assert init[j].click;
      }
      if AnyClicked(init) {
        var j :| 0 <= j < |init| && init[j].click;
        assert rs[j].click;
      }
    }
  }

  /** The metrics after the per-response loop over `rs`, in order. */
  function AfterResponses(d: Counters, rs: seq<ClusterResponse>): (e: Counters)
    requires d.Valid()
    ensures e.Valid()
    decreases |rs|
  {
    if rs == [] then d
    else
      var e := AfterResponses(d, rs[..|rs| - 1]);
      var r := rs[|rs| - 1];
      if r.click then Added(Added(Added(e, "click", 1.0), "quality", r.quality), ClusterKey(r.clusterId), 1.0)
      else e
  }

  /** The metrics after one call of the aggregator. */
  function Aggregated(d: Counters, rs: seq<ClusterResponse>): (e: Counters)
    requires d.Valid()
    ensures e.Valid()
  {
    var after := AfterResponses(Added(d, "impression", 1.0), rs);
    if AnyClicked(rs) then after else Added(after, NoClickKey, 1.0)
  }

  /** `aggregate_video_cluster_metrics`: updates `metrics` in place (the source also returns it). */
  method AggregateVideoClusterMetrics(responses: seq<ClusterResponse>, metrics: MetricDict)
    requires metrics.Contents().Valid()
    modifies metrics
    ensures metrics.Contents() == Aggregated(old(metrics.Contents()), responses)
  {
    var isClicked := false;
    metrics.Increment("impression", 1.0);
    ghost var start := metrics.Contents();
    var i := 0;
    while i < |responses|
      invariant 0 <= i <= |responses|
      invariant metrics.Contents() == AfterResponses(start, responses[..i])
      invariant isClicked <==> ClickCount(responses[..i]) > 0
    {
      var response := responses[i];
      assert responses[..i + 1][..i] == responses[..i];
      if response.click {
        isClicked := true;
        metrics.Increment("click", 1.0);
        metrics.Increment("quality", response.quality);
        metrics.Increment(ClusterKey(response.clusterId), 1.0);
      }
      i := i + 1;
    }
    assert responses[..i] == responses;
    ClickedIffCounted(responses);
    if !isClicked {
      metrics.Increment(NoClickKey, 1.0);
    }
  }

  /** The number of clicked responses. */
  function ClickCount(rs: seq<ClusterResponse>): nat
  {
    if rs == [] then 0 else ClickCount(rs[..|rs| - 1]) + Indicator(rs[|rs| - 1].click)
  }

  /** The summed quality of the clicked responses. */
  function ClickedQuality(rs: seq<ClusterResponse>): real
  {
    if rs == [] then 0.0
    else ClickedQuality(rs[..|rs| - 1]) + (if rs[|rs| - 1].click then rs[|rs| - 1].quality else 0.0)
  }

  /** The number of clicked responses in cluster `c`. */
  function ClusterClicks(rs: seq<ClusterResponse>, c: int): nat
  {
    if rs == [] then 0
    else ClusterClicks(rs[..|rs| - 1], c) + Indicator(rs[|rs| - 1].click && rs[|rs| - 1].clusterId == c)
  }

  /** The response loop adds the click count to `click`. */
  lemma {:induction false} LoopCountsClicks(d: Counters, rs: seq<ClusterResponse>)
    requires d.Valid()
    ensures Read(AfterResponses(d, rs), "click") == Read(d, "click") + ClickCount(rs) as real
    decreases |rs|
  {
    if rs != [] {
      LoopCountsClicks(d, rs[..|rs| - 1]);
      assert ClusterKey(rs[|rs| - 1].clusterId) != "click";
    }
  }

  /** The response loop adds the clicked responses' quality to `quality`. */
  lemma {:induction false} LoopSumsQuality(d: Counters, rs: seq<ClusterResponse>)
    requires d.Valid()
    ensures Read(AfterResponses(d, rs), "quality") == Read(d, "quality") + ClickedQuality(rs)
    decreases |rs|
  {
    if rs != [] {
      LoopSumsQuality(d, rs[..|rs| - 1]);
      assert ClusterKey(rs[|rs| - 1].clusterId) != "quality";
    }
  }

  /** The response loop adds to each cluster's watch count the clicks in that cluster. */
  lemma {:induction false} LoopCountsCluster(d: Counters, rs: seq<ClusterResponse>, c: int)
    requires d.Valid()
    ensures Read(AfterResponses(d, rs), ClusterKey(c)) == Read(d, ClusterKey(c)) + ClusterClicks(rs, c) as real
    decreases |rs|
  {
    if rs != [] {
      LoopCountsCluster(d, rs[..|rs| - 1], c);
      var r := rs[|rs| - 1];
      if ClusterKey(r.clusterId) == ClusterKey(c) {
        assert ClusterKey(r.clusterId)[|ClusterPrefix|..] == IntToString(r.clusterId);
        assert ClusterKey(c)[|ClusterPrefix|..] == IntToString(c);
        IntToStringInjective(r.clusterId, c);
      }
    }
  }

  /** The response loop touches no key other than `click`, `quality` and cluster keys. */
  lemma {:induction false} LoopKeepsOtherKeys(d: Counters, rs: seq<ClusterResponse>, k: string)
    requires d.Valid() && k != "click" && k != "quality" && !(ClusterPrefix <= k)
    ensures k in AfterResponses(d, rs).values <==> k in d.values
    ensures Read(AfterResponses(d, rs), k) == Read(d, k)
    decreases |rs|
  {
    if rs != [] {
      LoopKeepsOtherKeys(d, rs[..|rs| - 1], k);
    }
  }

  /**
   * One aggregation step: one more impression, the clicks, their quality and
   * their clusters counted, one more no-click step iff nothing was clicked,
   * and every other key untouched.
   */
  lemma {:induction false} AggregationEffect(d: Counters, rs: seq<ClusterResponse>)
    requires d.Valid()
    ensures Read(Aggregated(d, rs), "impression") == Read(d, "impression") + 1.0
    ensures Read(Aggregated(d, rs), "click") == Read(d, "click") + ClickCount(rs) as real
    ensures Read(Aggregated(d, rs), "quality") == Read(d, "quality") + ClickedQuality(rs)
    ensures forall c :: Read(Aggregated(d, rs), ClusterKey(c)) == Read(d, ClusterKey(c)) + ClusterClicks(rs, c) as real
    ensures Read(Aggregated(d, rs), NoClickKey) == Read(d, NoClickKey) + (if AnyClicked(rs) then 0.0 else 1.0)
    ensures forall k :: !IsMetricKey(k) ==>
      (k in Aggregated(d, rs).values <==> k in d.values) && Read(Aggregated(d, rs), k) == Read(d, k)
  {
    AggregatedImpression(d, rs);
    AggregatedClicks(d, rs);
    AggregatedNoClick(d, rs);
    AggregatedClusters(d, rs);
    AggregatedOthers(d, rs);
  }

  lemma {:induction false} AggregatedImpression(d: Counters, rs: seq<ClusterResponse>)
    requires d.Valid()
    ensures Read(Aggregated(d, rs), "impression") == Read(d, "impression") + 1.0
  {
    LoopKeepsOtherKeys(Added(d, "impression", 1.0), rs, "impression");
  }

  lemma {:induction false} AggregatedClicks(d: Counters, rs: seq<ClusterResponse>)
    requires d.Valid()
    ensures Read(Aggregated(d, rs), "click") == Read(d, "click") + ClickCount(rs) as real
    ensures Read(Aggregated(d, rs), "quality") == Read(d, "quality") + ClickedQuality(rs)
  {
    var d1 := Added(d, "impression", 1.0);
    LoopCountsClicks(d1, rs);
    LoopSumsQuality(d1, rs);
  }

  lemma {:induction false} AggregatedNoClick(d: Counters, rs: seq<ClusterResponse>)
    requires d.Valid()
    ensures Read(Aggregated(d, rs), NoClickKey) == Read(d, NoClickKey) + (if AnyClicked(rs) then 0.0 else 1.0)
  {
    assert NoClickKey[20] != ClusterPrefix[20];
    LoopKeepsOtherKeys(Added(d, "impression", 1.0), rs, NoClickKey);
  }

  lemma {:induction false} AggregatedClusters(d: Counters, rs: seq<ClusterResponse>)
    requires d.Valid()
    ensures forall c :: Read(Aggregated(d, rs), ClusterKey(c)) == Read(d, ClusterKey(c)) + ClusterClicks(rs, c) as real
  {
    var d1 := Added(d, "impression", 1.0);
    forall c
      ensures Read(Aggregated(d, rs), ClusterKey(c)) == Read(d, ClusterKey(c)) + ClusterClicks(rs, c) as real
    {
      LoopCountsCluster(d1, rs, c);
    }
  }

  lemma {:induction false} AggregatedOthers(d: Counters, rs: seq<ClusterResponse>)
    requires d.Valid()
    ensures forall k :: !IsMetricKey(k) ==>
      (k in Aggregated(d, rs).values <==> k in d.values) && Read(Aggregated(d, rs), k) == Read(d, k)
  {
    var d1 := Added(d, "impression", 1.0);
    forall k | !IsMetricKey(k)
      ensures (k in Aggregated(d, rs).values <==> k in d.values) && Read(Aggregated(d, rs), k) == Read(d, k)
    {
      LoopKeepsOtherKeys(d1, rs, k);
    }
  }

  // ---------------------------------------------------------------------------
  // Writing summaries

  /** The cluster watch fractions, one per key with the cluster prefix, in key order. */
  function ClusterFractions(d: Counters, keys: seq<string>, impression: real): (r: seq<(string, real)>)
    requires impression != 0.0
    ensures forall i :: 0 <= i < |r| ==> FractionPrefix <= r[i].0
    ensures |r| <= |keys|
  {
    if keys == [] then []
    else
      var rest := ClusterFractions(d, keys[..|keys| - 1], impression);
      var k := keys[|keys| - 1];
      if ClusterPrefix <= k then rest + [(FractionPrefix + k[|ClusterPrefix|..], Read(d, k) / impression)]
      else rest
  }

  /**
   * `write_video_cluster_metrics`: the (tag, value) pairs passed to
   * `add_summary_fn`, in order. A zero impression count raises
   * ZeroDivisionError at the first summary. The keys are iterated in
   * insertion order.
   */
  function Summaries(d: Counters): (r: Result<seq<(string, real)>>)
  {
    var click := Read(d, "click");
    var impression := Read(d, "impression");
    if impression == 0.0 then Err(ZeroDivisionError)
    else
      var quality := if click > 0.0 then [("AverageQuality", Read(d, "quality") / click)] else [];
      var fractions := ClusterFractions(d, d.order, impression);
      Ok([("CTR", click / impression)] + quality + fractions + [(NoClickFractionTag, Read(d, NoClickKey) / impression)])
  }

  /** The writer's loop over the keys: the fractions of the cluster keys, in key order. */
  method ClusterFractionSummaries(metrics: MetricDict, impression: real) returns (fractions: seq<(string, real)>)
    requires metrics.Contents().Valid() && impression != 0.0
    ensures fractions == ClusterFractions(metrics.Contents(), metrics.order, impression)
  {
    fractions := [];
    var keys := metrics.order;
    var i := 0;
    while i < |keys|
      invariant 0 <= i <= |keys|
      invariant fractions == ClusterFractions(metrics.Contents(), keys[..i], impression)
    {
      var k := keys[i];
      assert keys[..i + 1][..i] == keys[..i];
      if ClusterPrefix <= k {
        assert k in metrics.values;
        fractions := fractions + [(FractionPrefix + k[|ClusterPrefix|..], metrics.values[k] / impression)];
      }
      i := i + 1;
    }
    assert keys[..i] == keys;
  }

  /**
   * `write_video_cluster_metrics(metrics, add_summary_fn)`: returns the
   * summaries written.
   */
  method WriteVideoClusterMetrics(metrics: MetricDict) returns (r: Result<seq<(string, real)>>)
    requires metrics.Contents().Valid()
    ensures r == Summaries(metrics.Contents())
  {
    var click := Read(metrics.Contents(), "click");
    var impression := Read(metrics.Contents(), "impression");
    if impression == 0.0 {
      return Err(ZeroDivisionError);
    }
    var summaries := [("CTR", click / impression)];
    if click > 0.0 {
      summaries := summaries + [("AverageQuality", Read(metrics.Contents(), "quality") / click)];
    }
    var fractions := ClusterFractionSummaries(metrics, impression);
    assert fractions == ClusterFractions(metrics.Contents(), metrics.Contents().order, impression);
    r := Ok(summaries + fractions + [(NoClickFractionTag, Read(metrics.Contents(), NoClickKey) / impression)]);
    assert Summaries(metrics.Contents()).Ok?;
    assert summaries == [("CTR", click / impression)] + (if click > 0.0 then [("AverageQuality", Read(metrics.Contents(), "quality") / click)] else []);
  }

  /**
   * The summaries: CTR first; AverageQuality exactly when something was
   * clicked; the no-click fraction last; a zero impression count is the
   * only error.
   */
  lemma {:induction false} WrittenSummaries(d: Counters)
    requires d.Valid()
    ensures Summaries(d).Err? <==> Read(d, "impression") == 0.0
    ensures Summaries(d).Err? ==> Summaries(d).error == ZeroDivisionError
    ensures Summaries(d).Ok? ==> Summaries(d).value[0] == ("CTR", Read(d, "click") / Read(d, "impression"))
    ensures Summaries(d).Ok? ==>
      ((exists i :: 0 <= i < |Summaries(d).value| && Summaries(d).value[i].0 == "AverageQuality") <==> Read(d, "click") > 0.0)
    ensures Summaries(d).Ok? ==>
      Summaries(d).value[|Summaries(d).value| - 1] == (NoClickFractionTag, Read(d, NoClickKey) / Read(d, "impression"))
  {
    if Read(d, "impression") != 0.0 {
      var click := Read(d, "click");
      var fractions := ClusterFractions(d, d.order, Read(d, "impression"));
      var s := Summaries(d).value;
      var quality := if click > 0.0 then [("AverageQuality", Read(d, "quality") / click)] else [];
      assert s == [("CTR", click / Read(d, "impression"))] + quality + fractions + [(NoClickFractionTag, Read(d, NoClickKey) / Read(d, "impression"))];
      if click > 0.0 {
        assert s[1].0 == "AverageQuality";
      }
    }
  }

  /** The fractions are the cluster keys' counts over the impressions, one per cluster key, in key order. */
  lemma {:induction false} FractionsPerClusterKey(d: Counters, keys: seq<string>, impression: real, k: string)
    requires impression != 0.0 && ClusterPrefix <= k
    ensures (FractionPrefix + k[|ClusterPrefix|..], Read(d, k) / impression) in ClusterFractions(d, keys, impression) <==> k in keys
    decreases |keys|
  {
    if keys != [] {
      var init, last := keys[..|keys| - 1], keys[|keys| - 1];
      FractionsPerClusterKey(d, init, impression, k);
      assert keys == init + [last];
      if ClusterPrefix <= last && FractionPrefix + last[|ClusterPrefix|..] == FractionPrefix + k[|ClusterPrefix|..] {
        assert last[|ClusterPrefix|..] == (FractionPrefix + last[|ClusterPrefix|..])[|FractionPrefix|..];
        assert k[|ClusterPrefix|..] == (FractionPrefix + k[|ClusterPrefix|..])[|FractionPrefix|..];
        assert last == ClusterPrefix + last[|ClusterPrefix|..];
        assert k == ClusterPrefix + k[|ClusterPrefix|..];
      }
    }
  }
}
