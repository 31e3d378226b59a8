// The interest-evolution environment: videos described by topic features,
// users whose interests drift with what they watch and whose time budget
// shrinks with every slate, and the rewards computed from their responses.
module InterestEvolution {
  import opened Basics
  import opened Spaces
  import opened Document
  import opened ChoiceModel
  import opened User
  import opened Environment

  /** `IEvVideo.MAX_VIDEO_LENGTH`. */
  const MaxVideoLength: real := 100.0
  /** `IEvVideo.NUM_FEATURES`, which is also `IEvUserState.NUM_FEATURES`. */
  const NumFeatures: nat := 20
  /** `IEvResponse.MIN_QUALITY_SCORE` and `MAX_QUALITY_SCORE`. */
  const MinQualityScore: real := -100.0
  const MaxQualityScore: real := 100.0

  // ---------------------------------------------------------------------
  // Responses

  /**
   * A user's response to one video. The cluster id is None when the video
   * came from a sampler that leaves it unset.
   */
  datatype IEvResponse = IEvResponse(clicked: bool, watchTime: real, liked: bool, quality: real, clusterId: Option<int>)

  /** A response as `IEvResponse()` builds it; the default cluster id 0.0 reads back as 0. */
  const DefaultResponse: IEvResponse := IEvResponse(false, 0.0, false, 0.0, Some(0))

  /** The entries of a response observation, in the order the dict literal lists them. */
  function ObservationEntries(r: IEvResponse, cluster: int): seq<(string, Value)>
  {
    [("click", VInt(Indicator(r.clicked))), ("watch_time", VReal(r.watchTime)),
     ("liked", VInt(Indicator(r.liked))), ("quality", VReal(r.quality)), ("cluster_id", VInt(cluster))]
  }

  /**
   * `create_observation()`: click and liked as 0/1, the watch time and the
   * quality as they are, the cluster id as an integer. `int(None)` raises
   * TypeError.
   */
  function ResponseObservation(r: IEvResponse): (obs: Result<Value>)
    ensures obs.Ok? <==> r.clusterId.Some?
    ensures r.clusterId.None? ==> obs == Err(TypeError)
    ensures obs.Ok? ==> obs.value.VDict? && |obs.value.entries| == 5
  {
    if r.clusterId.None? then Err(TypeError)
    else Ok(VDict(ObservationEntries(r, r.clusterId.value)))
  }

  /** Reading the click and like fields of a response observation back recovers the two flags. */
  lemma {:induction false} ResponseObservationFlags(r: IEvResponse)
    requires r.clusterId.Some?
    ensures Field(ResponseObservation(r).value, "click") == Ok(VInt(1)) <==> r.clicked
    ensures Field(ResponseObservation(r).value, "liked") == Ok(VInt(1)) <==> r.liked
  {
    var e := ObservationEntries(r, r.clusterId.value);
    LookupFirstOccurrence(e, 0);
    LookupFirstOccurrence(e, 2);
  }

  /** Reading the watch time and quality fields of a response observation back recovers them. */
  lemma {:induction false} ResponseObservationValues(r: IEvResponse)
    requires r.clusterId.Some?
    ensures Field(ResponseObservation(r).value, "watch_time") == Ok(VReal(r.watchTime))
    ensures Field(ResponseObservation(r).value, "quality") == Ok(VReal(r.quality))
  {
    var e := ObservationEntries(r, r.clusterId.value);
    LookupFirstOccurrence(e, 1);
    LookupFirstOccurrence(e, 3);
  }

  /** Reading the cluster id field of a response observation back recovers the cluster id. */
  lemma {:induction false} ResponseObservationCluster(r: IEvResponse)
    requires r.clusterId.Some?
    ensures Field(ResponseObservation(r).value, "cluster_id") == Ok(VInt(r.clusterId.value))
  {
    var e := ObservationEntries(r, r.clusterId.value);
    LookupFirstOccurrence(e, 4);
  }

  /**
   * `IEvResponse.response_space()`: gym's `Dict` sorts the keys of the plain
   * dict it is given, so the five entries come in alphabetical order.
   */
  function ResponseSpace(): (sp: Space)
    ensures sp.DictSpace? && Keys(sp.fields) == ["click", "cluster_id", "liked", "quality", "watch_time"]
    ensures Lookup(sp.fields, "cluster_id") == Ok(Discrete(NumFeatures))
  {
    DictSpace([("click", Discrete(2)), ("cluster_id", Discrete(NumFeatures)), ("liked", Discrete(2)),
               ("quality", Box([], [Bounded(MinQualityScore)], [Bounded(MaxQualityScore)])),
               ("watch_time", Box([], [Bounded(0.0)], [Bounded(MaxVideoLength)]))])
  }

  // ---------------------------------------------------------------------
  // Video samplers

  /** `uniform(low, high, n)` for the draws `us`. */
  function UniformAll(low: real, high: real, us: seq<Unit>): (xs: seq<real>)
    ensures |xs| == |us| && forall i :: 0 <= i < |us| ==> xs[i] == Uniform(low, high, us[i])
  {
    seq(|us|, i requires 0 <= i < |us| => Uniform(low, high, us[i]))
  }

  /**
   * `IEvVideoSampler.sample_document()`: the counter is the id, twenty
   * uniform features, a normal length capped at `MAX_VIDEO_LENGTH`, quality
   * 1.0 and no cluster id.
   */
  function IEvVideoRule(minFeature: real, maxFeature: real, lengthMean: real, lengthStd: real, normal: Distribution): SampleRule
  {
    (rng: RandomState, count: int, stream: Stream) =>
      var features := Draws(rng, stream, NumFeatures);
      var length := Draw(features.1, stream);
      (Document(count, Video(UniformAll(minFeature, maxFeature, features.0), None,
                             MinReal(normal(lengthMean, lengthStd, length.0), MaxVideoLength), 1.0)),
       length.1, count + 1)
  }

  /** The properties of every video `IEvVideoSampler` draws. */
  lemma {:induction false} IEvVideoDraw(minFeature: real, maxFeature: real, lengthMean: real, lengthStd: real, normal: Distribution,
                     rng: RandomState, count: int, stream: Stream)
    ensures var next := IEvVideoRule(minFeature, maxFeature, lengthMean, lengthStd, normal)(rng, count, stream);
      && next.0.docId == count && next.2 == count + 1
      && next.0.body.Video? && |next.0.body.features| == NumFeatures
      && (minFeature <= maxFeature ==> forall i :: 0 <= i < NumFeatures ==>
            minFeature <= next.0.body.features[i] && (next.0.body.features[i] < maxFeature || minFeature == maxFeature))
      && next.0.body.videoLength <= MaxVideoLength
      && next.0.body.quality == 1.0 && next.0.body.clusterId.None?
  {
    var features := Draws(rng, stream, NumFeatures);
    var length := Draw(features.1, stream);
    var xs := UniformAll(minFeature, maxFeature, features.0);
    assert IEvVideoRule(minFeature, maxFeature, lengthMean, lengthStd, normal)(rng, count, stream).0.body
        == Video(xs, None, MinReal(normal(lengthMean, lengthStd, length.0), MaxVideoLength), 1.0);
  }

  /**
   * `cluster_means` of `UtilityModelVideoSampler`: `int(20 * 0.7) = 14`
   * "trashy" means from the minimum utility up to 0, then
   * `int(20 * 0.3) = 6` "nutritious" means from 0 up to the maximum.
   */
  function ClusterMeans(minUtility: real, maxUtility: real): (means: seq<real>)
    ensures |means| == NumFeatures
    ensures means[0] == minUtility && means[13] == 0.0 && means[14] == 0.0 && means[19] == maxUtility
    ensures minUtility <= 0.0 ==> forall i :: 0 <= i < 14 ==> minUtility <= means[i] <= 0.0
    ensures 0.0 <= maxUtility ==> forall i :: 14 <= i < NumFeatures ==> 0.0 <= means[i] <= maxUtility
  {
    var trashy := Linspace(minUtility, 0.0, 14);
    var nutritious := Linspace(0.0, maxUtility, 6);
    assert (trashy + nutritious)[13] == trashy[13];
    assert (trashy + nutritious)[14] == nutritious[0];
    trashy + nutritious
  }

  /** A one-hot vector of length n with the 1.0 at position k. */
  function OneHot(k: nat, n: nat): (v: seq<real>)
    ensures |v| == n && forall i :: 0 <= i < n ==> v[i] == if i == k then 1.0 else 0.0
  {
    seq(n, i requires 0 <= i < n => if i == k then 1.0 else 0.0)
  }

  /**
   * `UtilityModelVideoSampler.sample_document()`: the counter is the id, a
   * uniform cluster among the twenty, one-hot features at that cluster, the
   * fixed length, and a quality drawn around that cluster's mean with scale 0.1.
   */
  function UtilityModelVideoRule(minUtility: real, maxUtility: real, videoLength: real, normal: Distribution): SampleRule
  {
    (rng: RandomState, count: int, stream: Stream) =>
      var c := Draw(rng, stream);
      var cluster := RandInt(c.0, NumFeatures);
      var q := Draw(c.1, stream);
      (Document(count, Video(OneHot(cluster, NumFeatures), Some(cluster), videoLength,
                             normal(ClusterMeans(minUtility, maxUtility)[cluster], 0.1, q.0))),
       q.1, count + 1)
  }

  /** The properties of every video `UtilityModelVideoSampler` draws. */
  lemma {:induction false} UtilityModelVideoDraw(minUtility: real, maxUtility: real, videoLength: real, normal: Distribution,
                              rng: RandomState, count: int, stream: Stream)
    ensures var next := UtilityModelVideoRule(minUtility, maxUtility, videoLength, normal)(rng, count, stream);
      && next.0.docId == count && next.2 == count + 1
      && next.0.body.Video? && next.0.body.clusterId.Some?
      && 0 <= next.0.body.clusterId.value < NumFeatures
      && next.0.body.features == OneHot(next.0.body.clusterId.value, NumFeatures)
      && next.0.body.videoLength == videoLength
  {
    var c := Draw(rng, stream);
    var cluster := RandInt(c.0, NumFeatures);
    var q := Draw(c.1, stream);
    assert UtilityModelVideoRule(minUtility, maxUtility, videoLength, normal)(rng, count, stream).0.body
        == Video(OneHot(cluster, NumFeatures), Some(cluster), videoLength,
                 normal(ClusterMeans(minUtility, maxUtility)[cluster], 0.1, q.0));
  }

  /** Both video samplers number their documents with their counter. */
  lemma {:induction false} VideoSamplersNumberByCounter(minFeature: real, maxFeature: real, lengthMean: real, lengthStd: real,
                                     minUtility: real, maxUtility: real, videoLength: real, normal: Distribution)
    ensures NumbersByCounter(IEvVideoRule(minFeature, maxFeature, lengthMean, lengthStd, normal))
    ensures NumbersByCounter(UtilityModelVideoRule(minUtility, maxUtility, videoLength, normal))
  {
    forall rng, c, stream
      ensures IEvVideoRule(minFeature, maxFeature, lengthMean, lengthStd, normal)(rng, c, stream).0.docId == c
    {
      IEvVideoDraw(minFeature, maxFeature, lengthMean, lengthStd, normal, rng, c, stream);
    }
    forall rng, c, stream
      ensures UtilityModelVideoRule(minUtility, maxUtility, videoLength, normal)(rng, c, stream).0.docId == c
    {
      UtilityModelVideoDraw(minUtility, maxUtility, videoLength, normal, rng, c, stream);
    }
  }

  /**
   * A fresh video sampler, as either constructor builds it: the counter
   * starts at 0 and `num_clusters` keeps the base class's 0 (the utility
   * sampler's cluster count is a private attribute).
   */
  method NewVideoSampler(seed: int, rule: SampleRule) returns (s: DocumentSampler)
    ensures fresh(s) && s.seed == seed && s.rule == rule
    ensures s.rng == Seeded(seed) && s.docCount == 0 && s.numClusters == 0
  {
    s := new DocumentSampler(seed, rule, 0);
  }

  // ---------------------------------------------------------------------
  // Users

  /** The user state: interests, time budget, choice features and the transition parameters. */
  datatype IEvUserState = IEvUserState(
    interests: seq<real>,
    timeBudget: real,
    keepInteractProb: Option<real>,
    minDocUtility: Option<real>,
    choiceFeatures: ChoiceFeatures,
    userUpdateAlpha: real,
    stepPenalty: real,
    userQualityFactor: real,
    documentQualityFactor: real)

  /** The `choice_features` dict every user state carries. */
  function ChoiceFeaturesOf(scoreScaling: real, attentionProb: real, noClickMass: real, minNormalizer: real): ChoiceFeatures
  {
    map["score_scaling" := Some(scoreScaling), "attention_prob" := Some(attentionProb),
        "no_click_mass" := Some(noClickMass), "min_normalizer" := Some(minNormalizer)]
  }

  /**
   * `UtilityModelUserSampler.sample_user()`: twenty uniform interests in
   * [-1, 1), a budget of 200, and the fixed choice and transition parameters.
   */
  function UtilityModelUserRule(noClickMass: real, minNormalizer: real, documentQualityFactor: real): UserRule<IEvUserState>
  {
    (rng: RandomState, stream: Stream) =>
      var d := Draws(rng, stream, NumFeatures);
      (IEvUserState(UniformAll(-1.0, 1.0, d.0), 200.0, None, None,
                    ChoiceFeaturesOf(0.05, 0.65, noClickMass, minNormalizer),
                    0.9 * (1.0 / 3.4), 0.5, 0.0, documentQualityFactor),
       d.1)
  }

  /**
   * `IEvUserDistributionSampler.sample_user()`: twenty uniform interests, a
   * budget of 30, a beta(1, 3) interaction probability and fixed parameters.
   */
  function IEvUserDistributionRule(beta: Distribution): UserRule<IEvUserState>
  {
    (rng: RandomState, stream: Stream) =>
      var d := Draws(rng, stream, NumFeatures);
      var b := Draw(d.1, stream);
      (IEvUserState(UniformAll(-1.0, 1.0, d.0), 30.0, Some(beta(1.0, 3.0, b.0)), Some(0.1),
                    ChoiceFeaturesOf(0.05, 0.9, 1.0, -1.0), 0.0, 1.0, 1.0, 1.0),
       b.1)
  }

  /** Every value lies in [-1, 1]. */
  predicate InUnitBox(v: seq<real>)
  {
    forall i :: 0 <= i < |v| ==> -1.0 <= v[i] <= 1.0
  }

  /** Both user samplers draw twenty interests in [-1, 1]. */
  lemma {:induction false} SampledInterestsInRange(noClickMass: real, minNormalizer: real, documentQualityFactor: real,
                                beta: Distribution, rng: RandomState, stream: Stream)
    ensures var s := UtilityModelUserRule(noClickMass, minNormalizer, documentQualityFactor)(rng, stream).0;
      |s.interests| == NumFeatures && InUnitBox(s.interests)
    ensures var s := IEvUserDistributionRule(beta)(rng, stream).0;
      |s.interests| == NumFeatures && InUnitBox(s.interests)
  {
  }

  /** The sum of the products of matching entries, accumulated from the left. */
  function Dot(a: seq<real>, b: seq<real>): real
    requires |a| == |b|
  {
    if a == [] then 0.0 else Dot(a[..|a| - 1], b[..|b| - 1]) + a[|a| - 1] * b[|b| - 1]
  }

  /** Against a one-hot vector the dot product picks out one entry. */
  lemma {:induction false} DotOneHot(x: seq<real>, k: nat)
    ensures Dot(x, OneHot(k, |x|)) == if k < |x| then x[k] else 0.0
  {
    if x != [] {
      var n := |x|;
      assert OneHot(k, n)[..n - 1] == OneHot(k, n - 1);
      DotOneHot(x[..n - 1], k);
    }
  }

  /**
   * `IEvUserState.score_document(doc_obs)`: the dot product of the interests
   * with the observation. Observations of another shape raise ValueError;
   * observations that are not arrays have no shape (AttributeError).
   */
  function ScoreDocument(state: IEvUserState, obs: Value): (r: Result<real>)
    ensures r.Ok? <==> obs.VArray? && |obs.reals| == |state.interests|
    ensures obs.VArray? && |obs.reals| != |state.interests| ==> r == Err(ValueError)
    ensures r.Ok? ==> r.value == Dot(state.interests, obs.reals)
  {
    if !obs.VArray? then Err(AttributeError)
    else if |obs.reals| != |state.interests| then Err(ValueError)
    else Ok(Dot(state.interests, obs.reals))
  }

  /** A utility-model video scores exactly the user's interest in its cluster. */
  lemma {:induction false} UtilityVideoScore(state: IEvUserState, d: Document, cluster: nat)
    requires |state.interests| == NumFeatures && cluster < NumFeatures
    requires d.body.Video? && d.body.features == OneHot(cluster, NumFeatures)
    ensures ScoreDocument(state, Observation(d)) == Ok(state.interests[cluster])
  {
    DotOneHot(state.interests, cluster);
  }

  /** Every document of the slate is a video. */
  predicate AllVideos(documents: seq<Document>)
  {
    forall i :: 0 <= i < |documents| ==> documents[i].body.Video?
  }

  /**
   * The responses to a slate of videos once the choice model has picked
   * `selected`: every response carries its video's quality and cluster id,
   * and only the picked video's response is clicked, watched for
   * `min(budget, video_length)`.
   */
  function RespondTo(documents: seq<Document>, selected: Option<nat>, budget: real): (r: seq<IEvResponse>)
    requires AllVideos(documents)
    requires selected.Some? ==> selected.value < |documents|
    ensures |r| == |documents| && forall i :: 0 <= i < |documents| ==>
      && r[i].quality == documents[i].body.quality
      && r[i].clusterId == documents[i].body.clusterId
      && !r[i].liked
      && (r[i].clicked <==> selected == Some(i))
      && r[i].watchTime == (if r[i].clicked then MinReal(budget, documents[i].body.videoLength) else 0.0)
  {
    seq(|documents|, i requires 0 <= i < |documents| =>
      if selected == Some(i) then
        IEvResponse(true, MinReal(budget, documents[i].body.videoLength), false,
                    documents[i].body.quality, documents[i].body.clusterId)
      else IEvResponse(false, 0.0, false, documents[i].body.quality, documents[i].body.clusterId))
  }

  /**
   * `simulate_response(documents)`: the slate is scored and the choice model
   * picks a document or nothing; then every document must be a video, whose
   * quality and cluster id its response copies.
   */
  function SimulateResponse(exp: real -> real, kind: ChoiceKind, state: IEvUserState, documents: seq<Document>, noise: Noise)
    : (r: Result<seq<IEvResponse>>)
    requires ExpPositive(exp)
    ensures r.Ok? <==> SlateChoice(exp, kind, ScoreDocument, state, documents, noise).Ok? && AllVideos(documents)
    ensures r.Err? && SlateChoice(exp, kind, ScoreDocument, state, documents, noise).Ok? ==> r.error == AttributeError
    ensures r.Ok? ==> r.value == RespondTo(documents, SlateChoice(exp, kind, ScoreDocument, state, documents, noise).value, state.timeBudget)
  {
    var selected :- SlateChoice(exp, kind, ScoreDocument, state, documents, noise);
    if !AllVideos(documents) then Err(AttributeError)
    else Ok(RespondTo(documents, selected, state.timeBudget))
  }

  /** `is_terminal()`: the session ends once the time budget is spent. */
  predicate IsTerminal(state: IEvUserState)
  {
    state.timeBudget <= 0.0
  }

  /** The index of the first clicked response among the first `n`, if there is one. */
  function FirstClick(responses: seq<IEvResponse>, n: nat): (k: Option<nat>)
    requires n <= |responses|
    ensures k.Some? ==> k.value < n && responses[k.value].clicked
                        && forall j :: 0 <= j < k.value ==> !responses[j].clicked
    ensures k.None? ==> forall j :: 0 <= j < n ==> !responses[j].clicked
  {
    if n == 0 then None
    else
      var front := FirstClick(responses, n - 1);
      if front.Some? then front
      else if responses[n - 1].clicked then Some(n - 1)
      else None
  }

  /** `np.clip(x, -1.0, 1.0)`. */
  function Clip(x: real): (y: real)
    ensures -1.0 <= y <= 1.0
    ensures -1.0 <= x <= 1.0 ==> y == x
  {
    if x < -1.0 then -1.0 else if x > 1.0 then 1.0 else x
  }

  function Abs(x: real): real
  {
    if x < 0.0 then -x else x
  }

  /**
   * The interest update for a watched video with features `f`: every
   * interest moves by `alpha(x) * f * (f - x)`, towards the video when the
   * flip falls below `dot((x + 1) / 2, f)` and away from it otherwise, and is
   * clipped to [-1, 1]. The step size falls linearly from `alphaY` at x = 0
   * to 0 at |x| = alphaX.
   */
  function NewInterests(x: seq<real>, f: seq<real>, alphaX: real, alphaY: real, flip: Unit): (y: seq<real>)
    requires |f| == |x| && alphaX != 0.0
    ensures |y| == |x| && InUnitBox(y)
  {
    var towards := flip < Dot(seq(|x|, i requires 0 <= i < |x| => (x[i] + 1.0) / 2.0), f);
    seq(|x|, i requires 0 <= i < |x| => MoveInterest(x[i], f[i], alphaX, alphaY, towards))
  }

  /** One interest after the update: moved by `alpha(x) * f * (f - x)` either way, then clipped. */
  function MoveInterest(x: real, f: real, alphaX: real, alphaY: real, towards: bool): (y: real)
    requires alphaX != 0.0
    ensures -1.0 <= y <= 1.0
  {
    var update := ((-alphaY / alphaX) * Abs(x) + alphaY) * f * (f - x);
    Clip(if towards then x + update else x - update)
  }

  /**
   * `expected_utility`: the choice model scores the video's observation on
   * its own, and the one score it keeps is the expected utility.
   */
  function ExpectedUtility(exp: real -> real, kind: ChoiceKind, state: IEvUserState, doc: Document): (r: Result<real>)
    requires ExpPositive(exp)
    ensures var scored := ScoreSlate(exp, kind, ScoreDocument, state, DocObservations([doc]));
      && (r.Ok? <==> scored.Ok?)
      && (r.Ok? ==> [r.value] == scored.value.scores)
  {
    var scored :- ScoreSlate(exp, kind, ScoreDocument, state, DocObservations([doc]));
    Ok(scored.scores[0])
  }

  /**
   * The update for the first clicked response: the video is scored again on
   * its own for the expected utility, and the user becomes `Watched` of it.
   */
  function WatchUpdate(exp: real -> real, kind: ChoiceKind, alphaX: real, alphaY: real, state: IEvUserState,
                       doc: Document, response: IEvResponse, flip: Unit): (r: Result<IEvUserState>)
    requires ExpPositive(exp)
    ensures r.Ok? <==> ExpectedUtility(exp, kind, state, doc).Ok? && doc.body.Video? && alphaX != 0.0
    ensures r.Ok? ==> r.value == Watched(state, doc.body.features, alphaX, alphaY, flip, response.watchTime,
                                         ExpectedUtility(exp, kind, state, doc).value, doc.body.quality)
  {
    var utility := ExpectedUtility(exp, kind, state, doc);
    if utility.Err? then Err(utility.error)
    else if !doc.body.Video? then Err(AttributeError)
    else if alphaX == 0.0 then Err(ZeroDivisionError)
    else
      Ok(Watched(state, doc.body.features, alphaX, alphaY, flip, response.watchTime, utility.value, doc.body.quality))
  }

  /**
   * The user after watching a video with the given expected utility: the
   * interests move and are clipped, the watch time is spent, and
   * `user_update_alpha * watch_time` times the received utility (the
   * weighted expected utility plus the weighted document quality) is earned
   * back. Nothing else about the user changes.
   */
  function Watched(state: IEvUserState, features: seq<real>, alphaX: real, alphaY: real, flip: Unit,
                   watchTime: real, expectedUtility: real, quality: real): (s: IEvUserState)
    requires |features| == |state.interests| && alphaX != 0.0
    ensures |s.interests| == |state.interests| && InUnitBox(s.interests)
    ensures s.(interests := state.interests, timeBudget := state.timeBudget) == state
    ensures s.timeBudget == state.timeBudget - watchTime
                            + state.userUpdateAlpha * watchTime
                              * (state.userQualityFactor * expectedUtility + state.documentQualityFactor * quality)
  {
    var received := state.userQualityFactor * expectedUtility + state.documentQualityFactor * quality;
    var spent := state.timeBudget - watchTime;
    state.(interests := NewInterests(state.interests, features, alphaX, alphaY, flip),
           timeBudget := spent + state.userUpdateAlpha * watchTime * received)
  }

  /**
   * With the utility model's user quality factor of 0 the expected utility
   * drops out: watching costs the watch time, less `user_update_alpha` times
   * the watch time times the weighted document quality.
   */
  lemma {:induction false} WatchBudget(state: IEvUserState, features: seq<real>, alphaX: real, alphaY: real, flip: Unit,
                                       watchTime: real, expectedUtility: real, quality: real)
    requires |features| == |state.interests| && alphaX != 0.0
    requires state.userQualityFactor == 0.0
    ensures Watched(state, features, alphaX, alphaY, flip, watchTime, expectedUtility, quality).timeBudget
         == state.timeBudget - watchTime * (1.0 - state.userUpdateAlpha * state.documentQualityFactor * quality)
  {
    assert state.userQualityFactor * expectedUtility == 0.0;
  }

  /**
   * `update_state(slate_documents, responses)`: only the first clicked
   * response (over the pairs `zip` forms) changes the user; with no click the
   * budget loses the step penalty.
   */
  function UpdateState(exp: real -> real, kind: ChoiceKind, alphaX: real, alphaY: real, state: IEvUserState,
                       documents: seq<Document>, responses: seq<IEvResponse>, noise: Noise): (r: Result<IEvUserState>)
    requires ExpPositive(exp)
    ensures var n := if |documents| < |responses| then |documents| else |responses|;
      FirstClick(responses, n).None? ==> r == Ok(state.(timeBudget := state.timeBudget - state.stepPenalty))
    ensures var n := if |documents| < |responses| then |documents| else |responses|;
      FirstClick(responses, n).Some? ==> var k := FirstClick(responses, n).value;
        r == WatchUpdate(exp, kind, alphaX, alphaY, state, documents[k], responses[k], NoiseAt(noise, 0))
  {
    var n := if |documents| < |responses| then |documents| else |responses|;
    match FirstClick(responses, n)
    case None => Ok(state.(timeBudget := state.timeBudget - state.stepPenalty))
    case Some(k) => WatchUpdate(exp, kind, alphaX, alphaY, state, documents[k], responses[k], NoiseAt(noise, 0))
  }

  /** Only the first click matters: everything after it can be dropped without changing the update. */
  lemma {:induction false} OnlyFirstClickCounts(exp: real -> real, kind: ChoiceKind, alphaX: real, alphaY: real, state: IEvUserState,
                             documents: seq<Document>, responses: seq<IEvResponse>, noise: Noise, k: nat)
    requires ExpPositive(exp)
    requires k < |documents| && k < |responses| && responses[k].clicked
    requires forall j :: 0 <= j < k ==> !responses[j].clicked
    ensures UpdateState(exp, kind, alphaX, alphaY, state, documents, responses, noise)
         == UpdateState(exp, kind, alphaX, alphaY, state, documents[..k + 1], responses[..k + 1], noise)
  {
    var n := if |documents| < |responses| then |documents| else |responses|;
    FirstClickIs(responses, n, k);
    var ds, rs := documents[..k + 1], responses[..k + 1];
    assert forall j :: 0 <= j < k ==> rs[j] == responses[j];
    FirstClickIs(rs, k + 1, k);
    assert ds[k] == documents[k] && rs[k] == responses[k];
  }

  /** A clicked response with no click before it is the first click. */
  lemma {:induction false} FirstClickIs(responses: seq<IEvResponse>, n: nat, k: nat)
    requires k < n <= |responses| && responses[k].clicked
    requires forall j :: 0 <= j < k ==> !responses[j].clicked
    ensures FirstClick(responses, n) == Some(k)
  {
    var first := FirstClick(responses, n);
    if first.Some? {
      assert !(first.value < k) && !(k < first.value);
    }
  }

  /** A state whose interests lie in [-1, 1] keeps them there through any successful update. */
  lemma {:induction false} InterestsStayInRange(exp: real -> real, kind: ChoiceKind, alphaX: real, alphaY: real, state: IEvUserState,
                             documents: seq<Document>, responses: seq<IEvResponse>, noise: Noise)
    requires ExpPositive(exp) && InUnitBox(state.interests)
    requires UpdateState(exp, kind, alphaX, alphaY, state, documents, responses, noise).Ok?
    ensures var next := UpdateState(exp, kind, alphaX, alphaY, state, documents, responses, noise).value;
      |next.interests| == |state.interests| && InUnitBox(next.interests)
  {
  }

  /** `n` steps without a click: each one costs the step penalty. */
  function IdleSteps(exp: real -> real, kind: ChoiceKind, alphaX: real, alphaY: real, state: IEvUserState, n: nat)
    : IEvUserState
    requires ExpPositive(exp)
  {
    if n == 0 then state
    else
      var before := IdleSteps(exp, kind, alphaX, alphaY, state, n - 1);
      UpdateState(exp, kind, alphaX, alphaY, before, [], [], []).value
  }

  /**
   * After `n` slates without a click the budget has lost `n` step penalties
   * and nothing else has changed; so the session ends exactly when those
   * penalties reach the starting budget.
   */
  lemma {:induction false} IdleStepsBudget(exp: real -> real, kind: ChoiceKind, alphaX: real, alphaY: real,
                                           state: IEvUserState, n: nat)
    requires ExpPositive(exp)
    ensures IdleSteps(exp, kind, alphaX, alphaY, state, n)
         == state.(timeBudget := state.timeBudget - n as real * state.stepPenalty)
    ensures IsTerminal(IdleSteps(exp, kind, alphaX, alphaY, state, n)) <==> state.timeBudget <= n as real * state.stepPenalty
  {
    if n > 0 {
      IdleStepsBudget(exp, kind, alphaX, alphaY, state, n - 1);
      assert (n - 1) as real * state.stepPenalty + state.stepPenalty == n as real * state.stepPenalty;
    }
  }

  // ---------------------------------------------------------------------
  // Rewards

  /** Watch time summed over the clicked responses, from the left. */
  function ClickedWatchTime(responses: seq<IEvResponse>): real
  {
    if responses == [] then 0.0
    else
      var last := responses[|responses| - 1];
      ClickedWatchTime(responses[..|responses| - 1]) + (if last.clicked then last.watchTime else 0.0)
  }

  /** The number of clicked responses. */
  function ClickCount(responses: seq<IEvResponse>): nat
  {
    if responses == [] then 0
    else ClickCount(responses[..|responses| - 1]) + Indicator(responses[|responses| - 1].clicked)
  }

  /** `clicked_watchtime_reward(responses)`. */
  method ClickedWatchtimeReward(responses: seq<IEvResponse>) returns (reward: real)
    ensures reward == ClickedWatchTime(responses)
  {
    reward := 0.0;
    var i := 0;
    while i < |responses|
      invariant 0 <= i <= |responses|
      invariant reward == ClickedWatchTime(responses[..i])
    {
      assert responses[..i + 1][..i] == responses[..i];
      if responses[i].clicked {
        reward := reward + responses[i].watchTime;
      }
      i := i + 1;
    }
    assert responses[..i] == responses;
  }

  /** `total_clicks_reward(responses)`: each clicked flag adds 1.0. */
  method TotalClicksReward(responses: seq<IEvResponse>) returns (reward: real)
    ensures reward == ClickCount(responses) as real
  {
    reward := 0.0;
    var i := 0;
    while i < |responses|
      invariant 0 <= i <= |responses|
      invariant reward == ClickCount(responses[..i]) as real
    {
      assert responses[..i + 1][..i] == responses[..i];
      reward := reward + Indicator(responses[i].clicked) as real;
      i := i + 1;
    }
    assert responses[..i] == responses;
  }

  /**
   * Responses in which at most position `k` is clicked: the click count is 1
   * or 0 accordingly, and the watch-time reward is the watch time there.
   */
  lemma {:induction false} AtMostOneClicked(responses: seq<IEvResponse>, k: nat)
    requires forall i :: 0 <= i < |responses| && i != k ==> !responses[i].clicked
    ensures ClickCount(responses) == if k < |responses| && responses[k].clicked then 1 else 0
    ensures ClickedWatchTime(responses) == if k < |responses| && responses[k].clicked then responses[k].watchTime else 0.0
  {
    if responses != [] {
      AtMostOneClicked(responses[..|responses| - 1], k);
    }
  }

  /**
   * A simulated slate earns at most one click, and its watch-time reward is
   * `min(time_budget, video_length)` of the chosen video, or 0 when the user
   * clicks nothing.
   */
  lemma {:induction false} SimulatedRewards(exp: real -> real, kind: ChoiceKind, state: IEvUserState, documents: seq<Document>, noise: Noise)
    requires ExpPositive(exp)
    requires SimulateResponse(exp, kind, state, documents, noise).Ok?
    ensures var rs := SimulateResponse(exp, kind, state, documents, noise).value;
      var chosen := SlateChoice(exp, kind, ScoreDocument, state, documents, noise).value;
      && ClickCount(rs) == (if chosen.Some? then 1 else 0)
      && ClickedWatchTime(rs) == (if chosen.Some? then MinReal(state.timeBudget, documents[chosen.value].body.videoLength) else 0.0)
  {
    var rs := SimulateResponse(exp, kind, state, documents, noise).value;
    var chosen := SlateChoice(exp, kind, ScoreDocument, state, documents, noise).value;
    var k := if chosen.Some? then chosen.value else |rs|;
    AtMostOneClicked(rs, k);
  }

  // ---------------------------------------------------------------------
  // The user model and the environment

  /** The concrete behaviour of `IEvUserModel` with a given choice model and step-size line. */
  function IEvDynamics(exp: real -> real, kind: ChoiceKind, alphaX: real, alphaY: real): Dynamics<IEvUserState, IEvResponse>
    requires ExpPositive(exp)
  {
    Dynamics(
      (s: IEvUserState, documents: seq<Document>, noise: Noise) => SimulateResponse(exp, kind, s, documents, noise),
      (s: IEvUserState, documents: seq<Document>, responses: seq<IEvResponse>, noise: Noise) =>
        UpdateState(exp, kind, alphaX, alphaY, s, documents, responses, noise),
      (s: IEvUserState) => IsTerminal(s),
      (s: IEvUserState) => VArray(s.interests))
  }

  /**
   * `IEvUserModel(...)`: a `UtilityModelUserSampler` with the given seed and
   * no-click mass, the base constructor's checks and first user, then a bare
   * Exception without a choice model constructor, then the choice model
   * built from the first user's features (which may reject them).
   */
  method NewIEvUserModel(slateSize: nat, choiceCtor: Option<ChoiceModelCtor>, responseSpace: Option<Space>,
                         noClickMass: real, seed: int, alphaX: real, alphaY: real, exp: real -> real, stream: Stream)
    returns (r: Result<UserModel<IEvUserState, IEvResponse>>)
    requires ExpPositive(exp)
    ensures responseSpace.None? ==> r == Err(TypeError)
    ensures responseSpace.Some? && choiceCtor.None? ==> r == Err(Exception)
    ensures var first := UtilityModelUserRule(noClickMass, -1.0, 1.0)(Seeded(seed), stream).0;
      && (r.Ok? <==> responseSpace.Some? && choiceCtor.Some? && MakeChoiceModel(choiceCtor.value, first.choiceFeatures).Ok?)
      && (r.Ok? ==> (fresh(r.value) && fresh(r.value.sampler)
            && r.value.state == first && r.value.slateSize == slateSize
            && r.value.responseSpace == responseSpace.value
            && r.value.sampler.seed == seed && r.value.sampler.rule == UtilityModelUserRule(noClickMass, -1.0, 1.0)
            && r.value.dynamics == IEvDynamics(exp, MakeChoiceModel(choiceCtor.value, first.choiceFeatures).value, alphaX, alphaY)))
  {
    var sampler := new UserSampler(seed, UtilityModelUserRule(noClickMass, -1.0, 1.0));
    var first := sampler.rule(sampler.rng, stream).0;
    if responseSpace.None? {
      return Err(TypeError);
    }
    if choiceCtor.None? {
      return Err(Exception);
    }
    var kind := MakeChoiceModel(choiceCtor.value, first.choiceFeatures);
    if kind.Err? {
      return Err(kind.error);
    }
    var model := NewUserModel(responseSpace, sampler, slateSize, IEvDynamics(exp, kind.value, alphaX, alphaY), stream);
    return Ok(model.value);
  }

  /**
   * `create_environment(env_config)` without the gym wrapper: a proportional
   * choice model over the default user parameters, a utility-model video
   * sampler with the same seed, and a single-user environment over them.
   */
  method CreateEnvironment(slateSize: nat, numCandidates: nat, resampleDocuments: bool, seed: int,
                           exp: real -> real, normal: Distribution, stream: Stream)
    returns (r: Result<SingleUserEnvironment<IEvUserState, IEvResponse>>)
    requires ExpPositive(exp)
    ensures r.Ok? <==> slateSize <= numCandidates
    ensures r.Err? ==> r.error == AssertionError
    ensures r.Ok? ==> (fresh(r.value) && r.value.Valid()
      && r.value.user.dynamics == IEvDynamics(exp, MultinomialProportional(Some(-1.0), Some(1.0)), 1.0, 0.3)
      && r.value.env.sampler.rule == UtilityModelVideoRule(-3.0, 3.0, 4.0, normal)
      && r.value.env.numCandidates == numCandidates && r.value.env.slateSize == slateSize)
  {
    var user := NewIEvUserModel(slateSize, Some(MultinomialProportionalCtor), Some(ResponseSpace()),
                                1.0, seed, 1.0, 0.3, exp, stream);
    var sampler := NewVideoSampler(seed, UtilityModelVideoRule(-3.0, 3.0, 4.0, normal));
    r := NewSingleUserEnvironment(user.value, sampler, numCandidates, slateSize, resampleDocuments, stream);
  }
}
