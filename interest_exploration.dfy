// The interest-exploration environment: users of a few types with static,
// hidden affinities to document topics; topic documents whose quality is
// drawn per topic; a user scores a document by affinity plus quality and
// clicks at most one document; the reward counts clicks.
module InterestExploration {
  import opened Basics
  import opened Spaces
  import opened Document
  import opened ChoiceModel
  import opened User
  import opened Environment

  // ---------------------------------------------------------------------
  // Responses

  /** `IEResponse`: whether the document was clicked, its quality and its topic. */
  datatype IEResponse = IEResponse(clicked: bool, quality: real, clusterId: int)

  /** A response as `IEResponse()` builds it. */
  const DefaultResponse: IEResponse := IEResponse(false, 0.0, 0)

  /** `create_observation()`: the click as 0/1, the quality and the cluster id. */
  function ResponseObservation(r: IEResponse): (obs: Value)
    ensures obs.VDict? && Keys(obs.entries) == ["click", "quality", "cluster_id"]
  {
    VDict([("click", VInt(Indicator(r.clicked))), ("quality", VReal(r.quality)), ("cluster_id", VInt(r.clusterId))])
  }

  /** Each field of the observation reads back the response's attribute. */
  lemma {:induction false} ResponseObservationReadBack(r: IEResponse)
    ensures Field(ResponseObservation(r), "click") == Ok(VInt(Indicator(r.clicked)))
    ensures Field(ResponseObservation(r), "quality") == Ok(VReal(r.quality))
    ensures Field(ResponseObservation(r), "cluster_id") == Ok(VInt(r.clusterId))
  {
    var e := ResponseObservation(r).entries;
    LookupFirstOccurrence(e, 1);
    LookupFirstOccurrence(e, 2);
  }

  /**
   * `IEResponse.response_space()` once `NUM_CLUSTERS` is set: it has the
   * observation's keys, sorted by gym's `Dict`.
   */
  function ResponseSpace(numClusters: nat): (sp: Space)
    ensures sp.DictSpace? && Keys(sp.fields) == ["click", "cluster_id", "quality"]
    ensures forall k :: k in Keys(sp.fields) <==> k in Keys(ResponseObservation(DefaultResponse).entries)
    ensures Lookup(sp.fields, "cluster_id") == Ok(Discrete(numClusters))
  {
    DictSpace([("click", Discrete(2)), ("cluster_id", Discrete(numClusters)),
               ("quality", Box([], [Bounded(0.0)], [Unbounded(true)]))])
  }

  // ---------------------------------------------------------------------
  // Draws shared by both samplers

  /**
   * `rng.choice(n, p=dist)` on the draw `u`. numpy refuses an empty
   * distribution; that case is read as index 0.
   */
  function ChooseIndex(dist: seq<real>, u: Unit): (k: nat)
    ensures dist != [] ==> k < |dist| && k == Choice(dist, u)
  {
    if dist == [] then 0 else Choice(dist, u)
  }

  /** numpy's `lognormal(mean, sigma)`: the exponential of a normal draw, hence positive. */
  function Lognormal(exp: real -> real, normal: Distribution, mean: real, sigma: real, u: Unit): (x: real)
    ensures ExpPositive(exp) ==> x > 0.0
  {
    var y: real := normal(mean, sigma, u);
    exp(y)
  }

  // ---------------------------------------------------------------------
  // Documents

  /** The topic sampler's parameters: a distribution over topics and each topic's quality mean and scale. */
  datatype TopicTable = TopicTable(topicDist: seq<real>, qualityMean: seq<real>, qualityStddev: seq<real>)

  /** The constructor's default parameters. */
  const DefaultTopics: TopicTable := TopicTable([0.2, 0.8], [0.8, 0.2], [0.1, 0.1])

  /** The mean and scale lists have one entry per topic. */
  predicate TopicsMatch(t: TopicTable)
  {
    |t.qualityMean| == |t.topicDist| && |t.qualityStddev| == |t.topicDist|
  }

  /**
   * `IETopicDocumentSampler.sample_document()`: the counter is the id, then a
   * topic from the topic distribution, then a lognormal quality with that
   * topic's parameters.
   */
  function TopicRule(t: TopicTable, exp: real -> real, normal: Distribution): SampleRule
  {
    (rng: RandomState, count: int, stream: Stream) =>
      var topic := Draw(rng, stream);
      var quality := Draw(topic.1, stream);
      var k := ChooseIndex(t.topicDist, topic.0);
      (Document(count, TopicDoc(k, Lognormal(exp, normal, AtOr(t.qualityMean, k, 0.0), AtOr(t.qualityStddev, k, 0.0), quality.0))),
       quality.1, count + 1)
  }

  /**
   * What one draw of the topic sampler yields: the next id, a topic chosen
   * by the first draw, its quality from the second, and for a proper topic
   * distribution a topic of positive probability.
   */
  lemma {:induction false} TopicDraw(t: TopicTable, exp: real -> real, normal: Distribution, rng: RandomState, count: int, stream: Stream)
    requires TopicsMatch(t) && t.topicDist != []
    ensures var next := TopicRule(t, exp, normal)(rng, count, stream);
      var k := Choice(t.topicDist, stream(rng.seed, rng.position));
      && next.0 == Document(count, TopicDoc(k, Lognormal(exp, normal, t.qualityMean[k], t.qualityStddev[k],
                                                           stream(rng.seed, rng.position + 1))))
      && next.1 == RandomState(rng.seed, rng.position + 2) && next.2 == count + 1
      && (Sum(t.topicDist) == 1.0 ==> t.topicDist[k] > 0.0)
      && (ExpPositive(exp) ==> next.0.body.topicQuality > 0.0)
  {
    var topic := Draw(rng, stream);
    var quality := Draw(topic.1, stream);
    var k := ChooseIndex(t.topicDist, topic.0);
    var doc := Document(count, TopicDoc(k, Lognormal(exp, normal, AtOr(t.qualityMean, k, 0.0), AtOr(t.qualityStddev, k, 0.0), quality.0)));
    assert TopicRule(t, exp, normal)(rng, count, stream) == (doc, quality.1, count + 1);
    if Sum(t.topicDist) == 1.0 {
      ChoiceHasPositiveMass(t.topicDist, topic.0);
    }
  }

  /** From a fresh sampler the topic documents are numbered 0, 1, 2, ... */
  lemma {:induction false} TopicIdsFromZero(t: TopicTable, exp: real -> real, normal: Distribution, seed: int, stream: Stream, n: nat)
    ensures var drawn := SampleMany(TopicRule(t, exp, normal), Seeded(seed), 0, stream, n);
      drawn.2 == n && forall i :: 0 <= i < n ==> drawn.0[i].docId == i
  {
    assert NumbersByCounter(TopicRule(t, exp, normal));
    CounterIds(TopicRule(t, exp, normal), Seeded(seed), 0, stream, n);
  }

  /**
   * `IETopicDocumentSampler(...)`: the parameter lists must have one entry
   * per topic; the counter starts at 0 and `num_clusters` is the number of
   * topics.
   */
  method NewTopicSampler(t: TopicTable, seed: int, exp: real -> real, normal: Distribution) returns (r: Result<DocumentSampler>)
    ensures r.Ok? <==> TopicsMatch(t)
    ensures r.Err? ==> r.error == ValueError
    ensures r.Ok? ==> (fresh(r.value) && r.value.seed == seed && r.value.rule == TopicRule(t, exp, normal)
      && r.value.rng == Seeded(seed) && r.value.docCount == 0 && r.value.numClusters == |t.topicDist|)
  {
    if |t.qualityMean| != |t.topicDist| {
      return Err(ValueError);
    }
    if |t.qualityStddev| != |t.topicDist| {
      return Err(ValueError);
    }
    var s := new DocumentSampler.WithClusters(seed, TopicRule(t, exp, normal), 0, |t.topicDist|);
    return Ok(s);
  }

  // ---------------------------------------------------------------------
  // Users

  /** `IEUserState`: the user's affinity to each topic. */
  datatype IEUserState = IEUserState(topicAffinity: seq<real>)

  /** The user sampler's parameters: a distribution over user types and each type's affinity mean and scale per topic. */
  datatype UserTypeTable = UserTypeTable(typeDist: seq<real>, affinityMean: seq<seq<real>>, affinityStddev: seq<seq<real>>)

  /** The constructor's default parameters. */
  const DefaultUserTypes: UserTypeTable :=
    UserTypeTable([0.3, 0.7], [[0.1, 0.7], [0.7, 0.1]], [[0.1, 0.1], [0.1, 0.1]])

  /** The mean and scale matrices have one row per user type. */
  predicate UserTypesMatch(t: UserTypeTable)
  {
    |t.affinityMean| == |t.typeDist| && |t.affinityStddev| == |t.typeDist|
  }

  /** Row `k` of a matrix whose height the constructor checked; empty past its end. */
  function Row(m: seq<seq<real>>, k: nat): (row: seq<real>)
    ensures k < |m| ==> row == m[k]
  {
    if k < |m| then m[k] else []
  }

  /** `lognormal(mean=mu, sigma=sigma)` element by element, on one draw per element. */
  function LognormalAll(exp: real -> real, normal: Distribution, mu: seq<real>, sigma: seq<real>, us: seq<Unit>): (xs: seq<real>)
    requires |us| == |mu|
    ensures |xs| == |mu| && forall i :: 0 <= i < |mu| ==> xs[i] == Lognormal(exp, normal, mu[i], AtOr(sigma, i, 0.0), us[i])
  {
    seq(|mu|, i requires 0 <= i < |mu| => Lognormal(exp, normal, mu[i], AtOr(sigma, i, 0.0), us[i]))
  }

  /** A positive-valued distribution gives positive values element by element. */
  lemma {:induction false} LognormalAllPositive(exp: real -> real, normal: Distribution, mu: seq<real>, sigma: seq<real>, us: seq<Unit>)
    requires |us| == |mu| && ExpPositive(exp)
    ensures forall i :: 0 <= i < |mu| ==> LognormalAll(exp, normal, mu, sigma, us)[i] > 0.0
  {
  }

  /**
   * `IEClusterUserSampler.sample_user()`: a user type from the type
   * distribution, then one lognormal affinity per topic with that type's
   * parameters.
   */
  function ClusterUserRule(t: UserTypeTable, exp: real -> real, normal: Distribution): UserRule<IEUserState>
  {
    (rng: RandomState, stream: Stream) =>
      var userType := Draw(rng, stream);
      var k := ChooseIndex(t.typeDist, userType.0);
      var mu := Row(t.affinityMean, k);
      var us := Draws(userType.1, stream, |mu|);
      (IEUserState(LognormalAll(exp, normal, mu, Row(t.affinityStddev, k), us.0)), us.1)
  }

  /**
   * What one draw of the user sampler yields: a user type chosen by the
   * first draw, one affinity per topic from that type's row, positive when
   * the distribution is, and a type of positive probability for a proper
   * type distribution.
   */
  lemma {:induction false} ClusterUserDraw(t: UserTypeTable, exp: real -> real, normal: Distribution, rng: RandomState, stream: Stream)
    requires UserTypesMatch(t) && t.typeDist != []
    ensures var next := ClusterUserRule(t, exp, normal)(rng, stream);
      var k := Choice(t.typeDist, stream(rng.seed, rng.position));
      && |next.0.topicAffinity| == |t.affinityMean[k]|
      && (forall i :: 0 <= i < |t.affinityMean[k]| ==>
            next.0.topicAffinity[i] == Lognormal(exp, normal, t.affinityMean[k][i], AtOr(t.affinityStddev[k], i, 0.0),
                                                 stream(rng.seed, rng.position + 1 + i)))
      && next.1 == RandomState(rng.seed, rng.position + 1 + |t.affinityMean[k]|)
      && (Sum(t.typeDist) == 1.0 ==> t.typeDist[k] > 0.0)
      && (ExpPositive(exp) ==> forall i :: 0 <= i < |next.0.topicAffinity| ==> next.0.topicAffinity[i] > 0.0)
  {
    var userType := Draw(rng, stream);
    var k := ChooseIndex(t.typeDist, userType.0);
    var mu := Row(t.affinityMean, k);
    var us := Draws(userType.1, stream, |mu|);
    var affinity := LognormalAll(exp, normal, mu, Row(t.affinityStddev, k), us.0);
    assert ClusterUserRule(t, exp, normal)(rng, stream) == (IEUserState(affinity), us.1);
    if Sum(t.typeDist) == 1.0 {
      ChoiceHasPositiveMass(t.typeDist, userType.0);
    }
    if ExpPositive(exp) {
      LognormalAllPositive(exp, normal, mu, Row(t.affinityStddev, k), us.0);
    }
  }

  /**
   * `IEClusterUserSampler(...)`: the mean and scale matrices must have one
   * row per user type.
   */
  method NewClusterUserSampler(t: UserTypeTable, seed: int, exp: real -> real, normal: Distribution)
    returns (r: Result<UserSampler<IEUserState>>)
    ensures r.Ok? <==> UserTypesMatch(t)
    ensures r.Err? ==> r.error == ValueError
    ensures r.Ok? ==> (fresh(r.value) && r.value.seed == seed && r.value.rule == ClusterUserRule(t, exp, normal)
      && r.value.rng == Seeded(seed))
  {
    if |t.affinityMean| != |t.typeDist| {
      return Err(ValueError);
    }
    if |t.affinityStddev| != |t.typeDist| {
      return Err(ValueError);
    }
    var s := new UserSampler(seed, ClusterUserRule(t, exp, normal));
    return Ok(s);
  }

  /** Every row of the matrix has `width` entries. */
  predicate Rectangular(m: seq<seq<real>>, width: nat)
  {
    forall k :: 0 <= k < |m| ==> |m[k]| == width
  }

  /** Column `j` of `np.matmul(dist, means)`: the type-weighted sum of the types' mean affinities, from the left. */
  function WeightedColumn(dist: seq<real>, means: seq<seq<real>>, j: nat): real
    requires |dist| == |means| && forall k :: 0 <= k < |means| ==> j < |means[k]|
  {
    if dist == [] then 0.0
    else WeightedColumn(dist[..|dist| - 1], means[..|means| - 1], j) + Mul(dist[|dist| - 1], means[|means| - 1][j])
  }

  /**
   * `avg_affinity_given_topic()`: the mean affinity matrix weighted by the
   * user-type distribution. numpy raises ValueError unless the distribution
   * has one weight per row and the rows have one width.
   */
  function AvgAffinityGivenTopic(t: UserTypeTable): (r: Result<seq<real>>)
    ensures r.Ok? <==> |t.affinityMean| == |t.typeDist| > 0 && Rectangular(t.affinityMean, |t.affinityMean[0]|)
    ensures r.Ok? ==> |r.value| == |t.affinityMean[0]|
  {
    if |t.affinityMean| == |t.typeDist| > 0 && Rectangular(t.affinityMean, |t.affinityMean[0]|) then
      var width := |t.affinityMean[0]|;
      Ok(seq(width, j requires 0 <= j < width => WeightedColumn(t.typeDist, t.affinityMean, j)))
    else Err(ValueError)
  }

  /** The sum of nonnegative weights times values in [lo, hi] lies between lo and hi times the weight. */
  lemma {:induction false} WeightedColumnBounds(dist: seq<real>, means: seq<seq<real>>, j: nat, lo: real, hi: real)
    requires |dist| == |means| && forall k :: 0 <= k < |means| ==> j < |means[k]|
    requires forall k :: 0 <= k < |dist| ==> dist[k] >= 0.0
    requires forall k :: 0 <= k < |means| ==> lo <= means[k][j] <= hi
    ensures Mul(Sum(dist), lo) <= WeightedColumn(dist, means, j) <= Mul(Sum(dist), hi)
  {
    if dist != [] {
      var n := |dist| - 1;
      WeightedColumnBounds(dist[..n], means[..n], j, lo, hi);
      WeightBetween(Sum(dist[..n]), dist[n], means[n][j], lo, hi);
    }
  }

  /** One step of the bound: adding a nonnegative weight `d` on a value in [lo, hi]. */
  lemma {:induction false} WeightBetween(s: real, d: real, m: real, lo: real, hi: real)
    requires d >= 0.0 && lo <= m <= hi
    ensures Mul(s + d, lo) == Mul(s, lo) + Mul(d, lo) && Mul(d, lo) <= Mul(d, m)
    ensures Mul(s + d, hi) == Mul(s, hi) + Mul(d, hi) && Mul(d, m) <= Mul(d, hi)
  {
    assert d * (m - lo) >= 0.0;
    assert d * (hi - m) >= 0.0;
  }

  /**
   * The prior user state is an average: with a proper type distribution and
   * every mean affinity in [lo, hi], each averaged affinity is in [lo, hi].
   */
  lemma {:induction false} AverageAffinityInRange(t: UserTypeTable, lo: real, hi: real)
    requires AvgAffinityGivenTopic(t).Ok?
    requires Sum(t.typeDist) == 1.0 && forall k :: 0 <= k < |t.typeDist| ==> t.typeDist[k] >= 0.0
    requires forall k, j :: 0 <= k < |t.affinityMean| && 0 <= j < |t.affinityMean[k]| ==> lo <= t.affinityMean[k][j] <= hi
    ensures forall j :: 0 <= j < |AvgAffinityGivenTopic(t).value| ==> lo <= AvgAffinityGivenTopic(t).value[j] <= hi
  {
    var avg := AvgAffinityGivenTopic(t).value;
    forall j | 0 <= j < |avg|
      ensures lo <= avg[j] <= hi
    {
      WeightedColumnBounds(t.typeDist, t.affinityMean, j, lo, hi);
    }
  }

  /**
   * `score_document(doc_obs)`: the affinity at the observation's cluster id
   * (a Python index, so negative ids count from the end) plus its quality.
   * A numpy array cannot be indexed by a string key and other non-dicts
   * cannot be subscripted at all.
   */
  function ScoreDocument(state: IEUserState, obs: Value): (r: Result<real>)
    ensures !obs.VDict? ==> r.Err?
  {
    if obs.VArray? then Err(IndexError)
    else
      var cluster :- Field(obs, "cluster_id");
      if !cluster.VInt? then Err(IndexError)
      else
        var affinity :- PyIndex(state.topicAffinity, cluster.i);
        var quality :- Field(obs, "quality");
        match quality
        case VReal(x) => Ok(affinity + x)
        case VInt(n) => Ok(affinity + n as real)
        case _ => Err(TypeError)
  }

  /**
   * A topic document scores its topic's affinity plus its quality, and only
   * a topic outside the affinity vector raises (IndexError).
   */
  lemma {:induction false} TopicDocumentScore(state: IEUserState, d: Document)
    requires d.body.TopicDoc?
    ensures var r := ScoreDocument(state, Observation(d));
      && (r.Ok? <==> -|state.topicAffinity| <= d.body.topic < |state.topicAffinity|)
      && (r.Err? ==> r.error == IndexError)
      && (r.Ok? ==> r.value == PyIndex(state.topicAffinity, d.body.topic).value + d.body.topicQuality)
      && (0 <= d.body.topic < |state.topicAffinity| ==> r == Ok(state.topicAffinity[d.body.topic] + d.body.topicQuality))
  {
    var e := Observation(d).entries;
    LookupFirstOccurrence(e, 0);
    LookupFirstOccurrence(e, 1);
  }

  // ---------------------------------------------------------------------
  // The user model

  /** Every document of the slate is a topic document. */
  predicate AllTopicDocs(documents: seq<Document>)
  {
    forall i :: 0 <= i < |documents| ==> documents[i].body.TopicDoc?
  }

  /**
   * The responses to a slate of topic documents once the choice model has
   * picked `selected`: every response carries its document's quality and
   * cluster id, and only the picked document's response is clicked.
   */
  function RespondTo(documents: seq<Document>, selected: Option<nat>): (r: seq<IEResponse>)
    requires AllTopicDocs(documents)
    ensures |r| == |documents| && forall i :: 0 <= i < |documents| ==>
      && r[i].quality == documents[i].body.topicQuality
      && r[i].clusterId == documents[i].body.topic
      && (r[i].clicked <==> selected == Some(i))
  {
    seq(|documents|, i requires 0 <= i < |documents| =>
      IEResponse(selected == Some(i), documents[i].body.topicQuality, documents[i].body.topic))
  }

  /**
   * `simulate_response(documents)`: the slate is scored and the choice model
   * picks a document or nothing; then every document must be a topic
   * document, whose quality and cluster id its response copies. Nothing is
   * clicked when the model picks None.
   */
  function SimulateResponse(exp: real -> real, kind: ChoiceKind, state: IEUserState, documents: seq<Document>, noise: Noise)
    : (r: Result<seq<IEResponse>>)
    requires ExpPositive(exp)
    ensures r.Ok? <==> SlateChoice(exp, kind, ScoreDocument, state, documents, noise).Ok? && AllTopicDocs(documents)
    ensures r.Err? && SlateChoice(exp, kind, ScoreDocument, state, documents, noise).Ok? ==> r.error == AttributeError
    ensures r.Ok? ==> r.value == RespondTo(documents, SlateChoice(exp, kind, ScoreDocument, state, documents, noise).value)
  {
    var selected :- SlateChoice(exp, kind, ScoreDocument, state, documents, noise);
    if !AllTopicDocs(documents) then Err(AttributeError)
    else Ok(RespondTo(documents, selected))
  }

  /** The number of clicked responses. */
  function ClickCount(responses: seq<IEResponse>): nat
  {
    if responses == [] then 0
    else ClickCount(responses[..|responses| - 1]) + Indicator(responses[|responses| - 1].clicked)
  }

  /** `total_clicks_reward(responses)`: each clicked flag adds 1.0. */
  method TotalClicksReward(responses: seq<IEResponse>) returns (reward: real)
    ensures reward == ClickCount(responses) as real
  {
    reward := 0.0;
    var i := 0;
    while i < |responses|
      invariant 0 <= i <= |responses|
      invariant reward == ClickCount(responses[..i]) as real
    {
      assert responses[..i + 1][..i] == responses[..i];
      reward := reward + Indicator(responses[i].clicked) as real;
      i := i + 1;
    }
    assert responses[..i] == responses;
  }

  /** Responses in which no position other than `k` is clicked count one click or none. */
  lemma {:induction false} AtMostOneClicked(responses: seq<IEResponse>, k: nat)
    requires forall i :: 0 <= i < |responses| && i != k ==> !responses[i].clicked
    ensures ClickCount(responses) == if k < |responses| && responses[k].clicked then 1 else 0
  {
    if responses != [] {
      AtMostOneClicked(responses[..|responses| - 1], k);
    }
  }

  /** A simulated slate earns one click when the choice model picks a document and none otherwise. */
  lemma {:induction false} SimulatedClicks(exp: real -> real, kind: ChoiceKind, state: IEUserState, documents: seq<Document>, noise: Noise)
    requires ExpPositive(exp)
    requires SimulateResponse(exp, kind, state, documents, noise).Ok?
    ensures ClickCount(SimulateResponse(exp, kind, state, documents, noise).value)
      == if SlateChoice(exp, kind, ScoreDocument, state, documents, noise).value.Some? then 1 else 0
  {
    var rs := SimulateResponse(exp, kind, state, documents, noise).value;
    var chosen := SlateChoice(exp, kind, ScoreDocument, state, documents, noise).value;
    AtMostOneClicked(rs, if chosen.Some? then chosen.value else |rs|);
  }

  /**
   * The concrete behaviour of `IEUserModel`: its responses, a transition
   * that changes nothing, a session that never ends, and an empty
   * observation (the affinities are hidden).
   */
  function IEDynamics(exp: real -> real, kind: ChoiceKind): Dynamics<IEUserState, IEResponse>
    requires ExpPositive(exp)
  {
    Dynamics(
      (s: IEUserState, documents: seq<Document>, noise: Noise) => SimulateResponse(exp, kind, s, documents, noise),
      (s: IEUserState, documents: seq<Document>, responses: seq<IEResponse>, noise: Noise) => Ok(s),
      (s: IEUserState) => false,
      (s: IEUserState) => VArray([]))
  }

  /** The user's state never changes and the session never ends, whatever the slate and responses. */
  lemma {:induction false} StaticUser(exp: real -> real, kind: ChoiceKind, s: IEUserState, documents: seq<Document>,
                   responses: seq<IEResponse>, noise: Noise)
    requires ExpPositive(exp)
    ensures IEDynamics(exp, kind).transition(s, documents, responses, noise) == Ok(s)
    ensures !IEDynamics(exp, kind).terminal(s)
    ensures IEDynamics(exp, kind).observe(s) == VArray([])
  {
  }

  /** The features the user model hands to its choice model constructor. */
  function NoClickFeatures(noClickMass: real): ChoiceFeatures
  {
    map["no_click_mass" := Some(noClickMass)]
  }

  /**
   * `IEUserModel(...)`: a negative no-click mass raises ValueError first;
   * then the base constructor needs a response constructor and draws the
   * first user from an `IEClusterUserSampler` with the default parameters,
   * which needs a user state constructor (both TypeError); then a missing
   * choice model constructor raises a bare Exception; and the choice model
   * is built from the no-click mass alone.
   */
  method NewIEUserModel(slateSize: nat, noClickMass: real, choiceCtor: Option<ChoiceModelCtor>, hasUserStateCtor: bool,
                        responseSpace: Option<Space>, seed: int, exp: real -> real, normal: Distribution,
                        stream: Stream)
    returns (r: Result<UserModel<IEUserState, IEResponse>>)
    requires ExpPositive(exp)
    ensures noClickMass < 0.0 ==> r == Err(ValueError)
    ensures noClickMass >= 0.0 && (responseSpace.None? || !hasUserStateCtor) ==> r == Err(TypeError)
    ensures noClickMass >= 0.0 && responseSpace.Some? && hasUserStateCtor && choiceCtor.None? ==> r == Err(Exception)
    ensures r.Ok? <==> (noClickMass >= 0.0 && responseSpace.Some? && hasUserStateCtor && choiceCtor.Some?
                        && MakeChoiceModel(choiceCtor.value, NoClickFeatures(noClickMass)).Ok?)
    ensures r.Ok? ==> (fresh(r.value) && fresh(r.value.sampler)
      && r.value.state == ClusterUserRule(DefaultUserTypes, exp, normal)(Seeded(seed), stream).0
      && r.value.slateSize == slateSize && r.value.responseSpace == responseSpace.value
      && r.value.sampler.seed == seed && r.value.sampler.rule == ClusterUserRule(DefaultUserTypes, exp, normal)
      && r.value.dynamics == IEDynamics(exp, MakeChoiceModel(choiceCtor.value, NoClickFeatures(noClickMass)).value))
  {
    if noClickMass < 0.0 {
      return Err(ValueError);
    }
    var sampled := NewClusterUserSampler(DefaultUserTypes, seed, exp, normal);
    var sampler := sampled.value;
    if responseSpace.None? || !hasUserStateCtor {
      return Err(TypeError);
    }
    if choiceCtor.None? {
      return Err(Exception);
    }
    var kind :- MakeChoiceModel(choiceCtor.value, NoClickFeatures(noClickMass));
    var model := NewUserModel(responseSpace, sampler, slateSize, IEDynamics(exp, kind), stream);
    return Ok(model.value);
  }

  /**
   * `create_environment(env_config)` without the gym wrapper: the default
   * topic sampler, whose topic count sizes the response space, a user model
   * with the default multinomial-logit choice and no-click mass 5, and a
   * single-user environment over them.
   */
  method CreateEnvironment(slateSize: nat, numCandidates: nat, resampleDocuments: bool, seed: int,
                           exp: real -> real, normal: Distribution, stream: Stream)
    returns (r: Result<SingleUserEnvironment<IEUserState, IEResponse>>)
    requires ExpPositive(exp)
    ensures r.Ok? <==> slateSize <= numCandidates
    ensures r.Err? ==> r.error == AssertionError
    ensures r.Ok? ==> (fresh(r.value) && r.value.Valid()
      && r.value.user.dynamics == IEDynamics(exp, MultinomialLogit(Finite(5.0)))
      && r.value.user.responseSpace == ResponseSpace(2)
      && r.value.env.sampler.rule == TopicRule(DefaultTopics, exp, normal) && r.value.env.sampler.numClusters == 2
      && r.value.env.numCandidates == numCandidates && r.value.env.slateSize == slateSize)
  {
    var sampler := NewTopicSampler(DefaultTopics, seed, exp, normal);
    var user := NewIEUserModel(slateSize, 5.0, Some(MultinomialLogitCtor), true,
                               Some(ResponseSpace(sampler.value.numClusters)), seed, exp, normal, stream);
    r := NewSingleUserEnvironment(user.value, sampler.value, numCandidates, slateSize, resampleDocuments, stream);
  }
}
