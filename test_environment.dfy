// The simple sequential test environment: a fully observed user moving
// through a 6-state Markov decision process whose 4 actions are documents.
// The user always consumes the first document of the slate, earns that
// action's reward in the current state, and moves to a next state drawn from
// the action's transition row. Its Q-functions for three discounts are known.
module TestEnvironment {
  import opened Basics
  import opened Spaces
  import opened Document
  import opened ChoiceModel
  import opened User
  import opened Environment

  // ---------------------------------------------------------------------
  // The decision process

  /** The number of user states and of actions. */
  const NumStates: int := 6
  const NumActions: int := 4

  /** `_transition_matrix[action][state]`: the distribution of the next state. */
  const TransitionMatrix: seq<seq<seq<real>>> := [
    [[0.0, 0.1, 0.1, 0.8, 0.0, 0.0],
     [0.0, 0.0, 0.1, 0.1, 0.8, 0.0],
     [0.0, 0.0, 0.0, 0.1, 0.1, 0.8],
     [0.8, 0.0, 0.0, 0.0, 0.1, 0.1],
     [0.0, 0.0, 0.0, 0.0, 0.0, 1.0],
     [1.0, 0.0, 0.0, 0.0, 0.0, 0.0]],
    [[0.0, 0.0, 0.1, 0.1, 0.8, 0.0],
     [0.0, 0.0, 0.0, 0.1, 0.1, 0.8],
     [0.8, 0.0, 0.0, 0.0, 0.1, 0.1],
     [0.1, 0.8, 0.0, 0.0, 0.0, 0.1],
     [1.0, 0.0, 0.0, 0.0, 0.0, 0.0],
     [0.0, 1.0, 0.0, 0.0, 0.0, 0.0]],
    [[0.0, 0.0, 0.0, 0.1, 0.1, 0.8],
     [0.8, 0.0, 0.0, 0.0, 0.1, 0.1],
     [0.1, 0.8, 0.0, 0.0, 0.0, 0.1],
     [0.1, 0.1, 0.8, 0.0, 0.0, 0.0],
     [0.0, 1.0, 0.0, 0.0, 0.0, 0.0],
     [0.0, 0.0, 1.0, 0.0, 0.0, 0.0]],
    [[0.8, 0.0, 0.0, 0.0, 0.1, 0.1],
     [0.1, 0.8, 0.0, 0.0, 0.0, 0.1],
     [0.1, 0.1, 0.8, 0.0, 0.0, 0.0],
     [0.0, 0.1, 0.1, 0.8, 0.0, 0.0],
     [0.0, 0.0, 1.0, 0.0, 0.0, 0.0],
     [0.0, 0.0, 0.0, 1.0, 0.0, 0.0]]]

  /** `_reward_vector[action][state]`: the immediate reward. */
  const RewardVector: seq<seq<real>> := [
    [-10.0, 0.0, 0.0, 4.0, 0.0, 5.0],
    [-10.0, 0.0, 1.0, 0.0, 0.0, 0.0],
    [-10.0, 1.0, 0.0, 2.0, 0.0, 2.0],
    [-10.0, 0.0, 0.0, 0.0, 0.0, 5.0]]

  /** `QVALUES0[state][action]`: the Q-function for discount 0. */
  const QValues0: seq<seq<real>> := [
    [-10.0, -10.0, -10.0, -10.0], [0.0, 0.0, 1.0, 0.0], [0.0, 1.0, 0.0, 0.0],
    [4.0, 0.0, 2.0, 0.0], [0.0, 0.0, 0.0, 0.0], [5.0, 0.0, 2.0, 5.0]]

  /** `QVALUES05[state][action]`: the Q-function for discount 0.5, to five decimals. */
  const QValues05: seq<seq<real>> := [
    [-8.53022, -8.41259, -7.10072, -12.3547],
    [1.58741, 2.89928, -1.35468, 1.12842],
    [2.89928, -1.35468, 1.12842, 0.94964],
    [1.64532, 1.12842, 2.94964, 1.46978],
    [3.23741, -3.55036, 1.44964, 1.44964],
    [1.44964, 1.44964, 3.44964, 6.47482]]

  /** `QVALUES09[state][action]`: the Q-function for discount 0.9, to six significant digits. */
  const QValues09: seq<seq<real>> := [
    [5.79888, 6.59282, 8.12425, -0.615864],
    [16.5928, 18.1242, 10.3841, 15.641],
    [18.1242, 10.3841, 15.641, 15.4118],
    [13.3841, 15.641, 17.4118, 15.7989],
    [18.6036, 7.31182, 16.3118, 16.3118],
    [12.3118, 16.3118, 18.3118, 20.6706]]

  /** The sum of six numbers, written out. */
  lemma {:induction false} SumOfSix(p: seq<real>)
    requires |p| == 6
    ensures Sum(p) == p[0] + p[1] + p[2] + p[3] + p[4] + p[5]
  {
    assert p[..1][..0] == [];
    assert Sum(p[..1]) == p[0];
    assert p[..2][..1] == p[..1];
    assert Sum(p[..2]) == p[0] + p[1];
    assert p[..3][..2] == p[..2];
    assert Sum(p[..3]) == p[0] + p[1] + p[2];
    assert p[..4][..3] == p[..3];
    assert Sum(p[..4]) == p[0] + p[1] + p[2] + p[3];
    assert p[..5][..4] == p[..4];
    assert Sum(p[..5]) == p[0] + p[1] + p[2] + p[3] + p[4];
    assert p[..5] == p[..|p| - 1];
  }

  /** A probability distribution over the six states. */
  predicate StateDistribution(p: seq<real>)
  {
    |p| == NumStates && Sum(p) == 1.0 && forall k :: 0 <= k < |p| ==> p[k] >= 0.0
  }

  /** Every row of every action's transition matrix is a distribution over the six states. */
  lemma {:induction false} TransitionRowsStochastic()
    ensures |TransitionMatrix| == NumActions
    ensures forall a :: 0 <= a < NumActions ==> |TransitionMatrix[a]| == NumStates
    ensures forall a, s :: 0 <= a < NumActions && 0 <= s < NumStates ==> StateDistribution(TransitionMatrix[a][s])
  {
    forall a, s | 0 <= a < NumActions && 0 <= s < NumStates
      ensures StateDistribution(TransitionMatrix[a][s])
    {
      SumOfSix(TransitionMatrix[a][s]);
    }
  }

  /** The Q-function with discount 0 is the immediate reward: `QVALUES0[s][a] == reward_vector[a][s]`. */
  lemma {:induction false} ImmediateRewardIsQ0()
    ensures |QValues0| == NumStates && |RewardVector| == NumActions
    ensures forall s, a :: 0 <= s < NumStates && 0 <= a < NumActions ==> QValues0[s][a] == RewardVector[a][s]
  {
  }

  /** A table of Q-values: one row of four action values per state. */
  predicate QTable(q: seq<seq<real>>)
  {
    |q| == NumStates && forall s :: 0 <= s < |q| ==> |q[s]| == NumActions
  }

  /** The best of a state's four action values. */
  function BestValue(row: seq<real>): (m: real)
    requires |row| == NumActions
    ensures forall a :: 0 <= a < NumActions ==> row[a] <= m
    ensures m == row[0] || m == row[1] || m == row[2] || m == row[3]
  {
    var left := if row[0] >= row[1] then row[0] else row[1];
    var right := if row[2] >= row[3] then row[2] else row[3];
    if left >= right then left else right
  }

  /** The value function of a Q-table: the best action value of each state. */
  function ValueFunction(q: seq<seq<real>>): (v: seq<real>)
    requires QTable(q)
    ensures |v| == NumStates && forall s :: 0 <= s < NumStates ==> v[s] == BestValue(q[s])
  {
    [BestValue(q[0]), BestValue(q[1]), BestValue(q[2]), BestValue(q[3]), BestValue(q[4]), BestValue(q[5])]
  }

  /**
   * The Bellman backup of a value function `v`: the immediate reward plus
   * the discounted expected value of the next state.
   */
  function Backup(gamma: real, v: seq<real>, s: int, a: int): real
    requires |v| == NumStates && 0 <= s < NumStates && 0 <= a < NumActions
  {
    var p := TransitionMatrix[a][s];
    RewardVector[a][s] + gamma * (p[0] * v[0] + p[1] * v[1] + p[2] * v[2] + p[3] * v[3] + p[4] * v[4] + p[5] * v[5])
  }

  /** Row `s` of `q` is within `tolerance` of the backup of `v`, action by action. */
  predicate RowConsistent(gamma: real, q: seq<seq<real>>, v: seq<real>, tolerance: real, s: int)
    requires QTable(q) && |v| == NumStates && 0 <= s < NumStates
  {
    forall a :: 0 <= a < NumActions ==> -tolerance <= Backup(gamma, v, s, a) - q[s][a] <= tolerance
  }

  /** `q` is the fixed point of the backup with discount `gamma`, up to `tolerance` in every entry. */
  predicate BellmanConsistent(gamma: real, q: seq<seq<real>>, tolerance: real)
    requires QTable(q)
  {
    forall s :: 0 <= s < NumStates ==> RowConsistent(gamma, q, ValueFunction(q), tolerance, s)
  }

  /** The value functions listed with the Q-functions: the best action value of each state. */
  lemma {:induction false} KnownValueFunctions()
    ensures QTable(QValues0) && ValueFunction(QValues0) == [-10.0, 1.0, 1.0, 4.0, 0.0, 5.0]
    ensures QTable(QValues05)
      && ValueFunction(QValues05) == [-7.10072, 2.89928, 2.89928, 2.94964, 3.23741, 6.47482]
    ensures QTable(QValues09)
      && ValueFunction(QValues09) == [8.12425, 18.1242, 18.1242, 17.4118, 18.6036, 20.6706]
  {
  }

  /** The Q-function with discount 0 is exactly its own backup: the immediate reward. */
  lemma {:induction false} KnownQFunction0()
    ensures QTable(QValues0) && BellmanConsistent(0.0, QValues0, 0.0)
  {
    KnownValueFunctions();
  }

  /** The Q-function with discount 0.5 is its own backup up to 1e-4 in every entry. */
  lemma {:induction false} KnownQFunction05()
    ensures QTable(QValues05) && BellmanConsistent(0.5, QValues05, 0.0001)
  {
    KnownValueFunctions();
    var v := ValueFunction(QValues05);
    assert RowConsistent(0.5, QValues05, v, 0.0001, 0);
    assert RowConsistent(0.5, QValues05, v, 0.0001, 1);
    assert RowConsistent(0.5, QValues05, v, 0.0001, 2);
    assert RowConsistent(0.5, QValues05, v, 0.0001, 3);
    assert RowConsistent(0.5, QValues05, v, 0.0001, 4);
    assert RowConsistent(0.5, QValues05, v, 0.0001, 5);
  }

  /** The Q-function with discount 0.9 is its own backup up to 1e-4 in every entry. */
  lemma {:induction false} KnownQFunction09()
    ensures QTable(QValues09) && BellmanConsistent(0.9, QValues09, 0.0001)
  {
    KnownValueFunctions();
    var v := ValueFunction(QValues09);
    assert RowConsistent(0.9, QValues09, v, 0.0001, 0);
    assert RowConsistent(0.9, QValues09, v, 0.0001, 1);
    assert RowConsistent(0.9, QValues09, v, 0.0001, 2);
    assert RowConsistent(0.9, QValues09, v, 0.0001, 3);
    assert RowConsistent(0.9, QValues09, v, 0.0001, 4);
    assert RowConsistent(0.9, QValues09, v, 0.0001, 5);
  }

  // ---------------------------------------------------------------------
  // Documents

  /**
   * `SimpleSequentialDocumentSampler.sample_document()`: the action after the
   * last one, round robin over the four actions, and the next document id.
   * The sampler's `_last_action_id` starts at -1 and `_doc_count` at 0 and
   * both advance by one per document, so the action is always `_doc_count`
   * modulo 4 before the increment; the generator is not used.
   */
  function RoundRobinRule(): SampleRule
  {
    (rng: RandomState, count: int, stream: Stream) => (Document(count + 1, ActionDoc(count % 4)), rng, count + 1)
  }

  /**
   * `n` documents from a sampler whose counter is `count`: the ids are
   * count+1, count+2, ... and the actions continue the round robin.
   */
  lemma {:induction false} RoundRobinDraws(rng: RandomState, count: int, stream: Stream, n: nat)
    ensures SampleMany(RoundRobinRule(), rng, count, stream, n).2 == count + n
    ensures SampleMany(RoundRobinRule(), rng, count, stream, n).1 == rng
    ensures forall i :: 0 <= i < n ==> SampleMany(RoundRobinRule(), rng, count, stream, n).0[i]
                                         == Document(count + 1 + i, ActionDoc((count + i) % 4))
  {
    if n > 0 {
      RoundRobinDraws(rng, count, stream, n - 1);
    }
  }

  /** From a fresh sampler the ids are 1, 2, 3, ... and the actions 0, 1, 2, 3, 0, 1, ... */
  lemma {:induction false} RoundRobinFromStart(seed: int, stream: Stream, n: nat)
    ensures forall i :: 0 <= i < n ==> SampleMany(RoundRobinRule(), Seeded(seed), 0, stream, n).0[i]
                                         == Document(i + 1, ActionDoc(i % 4))
  {
    RoundRobinDraws(Seeded(seed), 0, stream, n);
  }

  /**
   * Any refill of at least four documents offers every action: the
   * candidate pool it builds holds a document of each of the four actions.
   */
  lemma {:induction false} EveryActionAvailable(rng: RandomState, count: int, stream: Stream, n: nat)
    requires n >= NumActions
    ensures forall a :: 0 <= a < NumActions ==>
      exists id :: id in PoolOf(SampleMany(RoundRobinRule(), rng, count, stream, n).0).0
        && PoolOf(SampleMany(RoundRobinRule(), rng, count, stream, n).0).0[id].body == ActionDoc(a)
  {
    var docs := SampleMany(RoundRobinRule(), rng, count, stream, n).0;
    RoundRobinDraws(rng, count, stream, n);
    assert Distinct(Ids(docs));
    PoolOfDistinct(docs);
    forall a | 0 <= a < NumActions
      ensures exists id :: id in PoolOf(docs).0 && PoolOf(docs).0[id].body == ActionDoc(a)
    {
      var i := RoundRobinOffset(count, a);
      assert docs[i].body == ActionDoc(a);
      assert docs[i].docId in PoolOf(docs).1;
    }
  }

  /** The offset within any four consecutive counter values at which the round robin reaches `a`. */
  function RoundRobinOffset(count: int, a: int): (i: nat)
    requires 0 <= a < NumActions
    ensures i < NumActions && (count + i) % 4 == a
  {
    var i := (a - count) % 4;
    assert (count + i) % 4 == a by {
      assert (a - count) == 4 * ((a - count) / 4) + i;
      assert count + i == a - 4 * ((a - count) / 4);
    }
    i
  }

  /** `SimpleSequentialDocumentSampler(seed)`: the base sampler with both counters at their start. */
  method NewRoundRobinSampler(seed: int) returns (s: DocumentSampler)
    ensures fresh(s) && s.seed == seed && s.rule == RoundRobinRule() && s.rng == Seeded(seed)
    ensures s.docCount == 0 && s.numClusters == 0
  {
    s := new DocumentSampler(seed, RoundRobinRule(), 0);
  }

  // ---------------------------------------------------------------------
  // Responses

  /** `SimpleSequentialResponse`: the reward of the action the document executed. */
  datatype SSResponse = SSResponse(reward: real)

  /** A response as `SimpleSequentialResponse()` builds it. */
  const DefaultResponse: SSResponse := SSResponse(0.0)

  /** `create_observation()`: the reward as a 0-dimensional numpy array. */
  function ResponseObservation(r: SSResponse): (obs: Value)
    ensures obs.VDict? && Keys(obs.entries) == ["reward"]
    ensures Field(obs, "reward") == Ok(VArray([r.reward]))
  {
    VDict([("reward", VArray([r.reward]))])
  }

  /** `response_space()`: the observation's key, the reward bounded by the table's extremes. */
  function ResponseSpace(): (sp: Space)
    ensures sp.DictSpace? && Keys(sp.fields) == Keys(ResponseObservation(DefaultResponse).entries)
  {
    DictSpace([("reward", Box([], [Bounded(-10.0)], [Bounded(5.0)]))])
  }

  /** Every reward in the table lies within the response space's bounds [-10, 5]. */
  lemma {:induction false} RewardsWithinResponseSpace()
    ensures forall a, s :: 0 <= a < NumActions && 0 <= s < NumStates ==> -10.0 <= RewardVector[a][s] <= 5.0
  {
  }

  // ---------------------------------------------------------------------
  // The user model

  /** `SimpleSequentialUserState`: the current state of the Markov chain. */
  datatype SSUserState = SSUserState(state: int)

  /**
   * `reward_vector[doc.action_id, state]`: numpy indexing, so a negative
   * action counts from the end and one outside [-4, 4) raises IndexError.
   */
  function ActionReward(action: int, s: SSUserState): (r: Result<real>)
    requires 0 <= s.state < NumStates
    ensures r.Ok? <==> -NumActions <= action < NumActions
    ensures 0 <= action < NumActions ==> r == Ok(RewardVector[action][s.state])
  {
    var row :- PyIndex(RewardVector, action);
    Ok(row[s.state])
  }

  /**
   * `simulate_response(documents)`: one default response per document, and
   * the first document's response carries the reward of its action in the
   * current state. An empty slate raises IndexError, a first document
   * without an action AttributeError.
   */
  function SimulateResponse(s: SSUserState, documents: seq<Document>): (r: Result<seq<SSResponse>>)
    requires 0 <= s.state < NumStates
    ensures r.Ok? <==> (documents != [] && documents[0].body.ActionDoc?
                        && -NumActions <= documents[0].body.actionId < NumActions)
    ensures r.Err? ==> r.error == (if documents != [] && !documents[0].body.ActionDoc? then AttributeError else IndexError)
    ensures r.Ok? ==> |r.value| == |documents| && forall i :: 0 < i < |documents| ==> r.value[i] == DefaultResponse
    ensures r.Ok? ==> r.value[0].reward == ActionReward(documents[0].body.actionId, s).value
  {
    if documents == [] then Err(IndexError)
    else if !documents[0].body.ActionDoc? then Err(AttributeError)
    else
      var reward :- ActionReward(documents[0].body.actionId, s);
      Ok([SSResponse(reward)] + Repeat(DefaultResponse, |documents| - 1))
  }

  /**
   * `update_state(slate_documents, responses)`: the next state is drawn by
   * `np.random.choice(6, p=transition_matrix[action, state])` with the first
   * noise draw; the responses are not looked at. Errors as for the reward.
   */
  function Transition(s: SSUserState, documents: seq<Document>, responses: seq<SSResponse>, noise: Noise)
    : (r: Result<SSUserState>)
    requires 0 <= s.state < NumStates
    ensures r.Ok? <==> (documents != [] && documents[0].body.ActionDoc?
                        && -NumActions <= documents[0].body.actionId < NumActions)
    ensures r.Ok? ==> 0 <= r.value.state < NumStates
  {
    if documents == [] then Err(IndexError)
    else if !documents[0].body.ActionDoc? then Err(AttributeError)
    else
      var matrix :- PyIndex(TransitionMatrix, documents[0].body.actionId);
      assert |matrix| == NumStates && |matrix[s.state]| == NumStates by {
        TransitionRowsStochastic();
      }
      Ok(SSUserState(Choice(matrix[s.state], NoiseAt(noise, 0))))
  }

  /**
   * The user moves only along the transition matrix: from a state in range,
   * an action in range leads to a state of positive probability in row
   * `[action, state]`, and the state stays in 0..5.
   */
  lemma {:induction false} TransitionFollowsMatrix(s: SSUserState, documents: seq<Document>, responses: seq<SSResponse>, noise: Noise)
    requires 0 <= s.state < NumStates
    requires documents != [] && documents[0].body.ActionDoc? && 0 <= documents[0].body.actionId < NumActions
    ensures Transition(s, documents, responses, noise).Ok?
    ensures TransitionMatrix[documents[0].body.actionId][s.state][Transition(s, documents, responses, noise).value.state]
      > 0.0
  {
    TransitionRowsStochastic();
    ChoiceHasPositiveMass(TransitionMatrix[documents[0].body.actionId][s.state], NoiseAt(noise, 0));
  }

  /** `starting_probs`' default: the chain starts in state 0. */
  const DefaultStartingProbs: seq<real> := [1.0, 0.0, 0.0, 0.0, 0.0, 0.0]

  /**
   * `SimpleSequentialUserSampler.sample_user()`: the starting state is
   * `np.random.choice(6, p=starting_probs)` on a draw `u` of numpy's global
   * generator; the sampler's own generator is not used.
   */
  function StartRule(startingProbs: seq<real>, u: Unit): UserRule<SSUserState>
  {
    (rng: RandomState, stream: Stream) => (SSUserState(if startingProbs == [] then 0 else Choice(startingProbs, u)), rng)
  }

  /** With the default starting probabilities every user starts in state 0, whatever the draw. */
  lemma {:induction false} DefaultStartIsZero(u: Unit, rng: RandomState, stream: Stream)
    ensures StartRule(DefaultStartingProbs, u)(rng, stream) == (SSUserState(0), rng)
  {
    assert DefaultStartingProbs[..1] == [1.0];
  }

  /** The users' observation is the state itself; the session never ends. */
  function SSDynamics(): Dynamics<SSUserState, SSResponse>
  {
    Dynamics(
      (s: SSUserState, documents: seq<Document>, noise: Noise) =>
        if 0 <= s.state < NumStates then SimulateResponse(s, documents) else Err(IndexError),
      (s: SSUserState, documents: seq<Document>, responses: seq<SSResponse>, noise: Noise) =>
        if 0 <= s.state < NumStates then Transition(s, documents, responses, noise) else Err(IndexError),
      (s: SSUserState) => false,
      (s: SSUserState) => VInt(s.state))
  }

  /**
   * One step for this user with a slate led by an action document: the
   * response carries the reward `reward_vector[action, state]`, and the next
   * state has positive probability from the current one under that action.
   */
  lemma {:induction false} ServeStep(s: SSUserState, documents: seq<Document>, noise: StepNoise)
    requires 0 <= s.state < NumStates
    requires documents != [] && documents[0].body.ActionDoc? && 0 <= documents[0].body.actionId < NumActions
    ensures SSDynamics().simulate(s, documents, noise.simulate).Ok?
    ensures SSDynamics().simulate(s, documents, noise.simulate).value[0].reward
      == RewardVector[documents[0].body.actionId][s.state]
    ensures var responses := SSDynamics().simulate(s, documents, noise.simulate).value;
      SSDynamics().transition(s, documents, responses, noise.transition).Ok?
      && TransitionMatrix[documents[0].body.actionId][s.state]
           [SSDynamics().transition(s, documents, responses, noise.transition).value.state] > 0.0
    ensures !SSDynamics().terminal(s)
  {
    var responses := SSDynamics().simulate(s, documents, noise.simulate).value;
    TransitionFollowsMatrix(s, documents, responses, noise.transition);
  }

  /**
   * `SimpleSequentialUserModel(slate_size, seed, starting_probs)`: the
   * sampler draws the first user, and numpy's `choice` raises ValueError
   * unless the starting probabilities are a distribution over six states.
   */
  method NewSSUserModel(slateSize: nat, seed: int, startingProbs: seq<real>, u: Unit, stream: Stream)
    returns (r: Result<UserModel<SSUserState, SSResponse>>)
    ensures r.Ok? <==> StateDistribution(startingProbs)
    ensures r.Err? ==> r.error == ValueError
    ensures r.Ok? ==> (fresh(r.value) && fresh(r.value.sampler)
      && r.value.state == SSUserState(Choice(startingProbs, u))
      && startingProbs[r.value.state.state] > 0.0
      && r.value.sampler.seed == seed && r.value.sampler.rule == StartRule(startingProbs, u)
      && r.value.slateSize == slateSize && r.value.responseSpace == ResponseSpace()
      && r.value.dynamics == SSDynamics())
  {
    if !StateDistribution(startingProbs) {
      return Err(ValueError);
    }
    ChoiceHasPositiveMass(startingProbs, u);
    var sampler := new UserSampler(seed, StartRule(startingProbs, u));
    var model := NewUserModel(Some(ResponseSpace()), sampler, slateSize, SSDynamics(), stream);
    return Ok(model.value);
  }

  // ---------------------------------------------------------------------
  // Reward and environment

  /** The sum of the responses' rewards. */
  function RewardSum(responses: seq<SSResponse>): real
  {
    if responses == [] then 0.0 else RewardSum(responses[..|responses| - 1]) + responses[|responses| - 1].reward
  }

  /** `total_reward(responses)`: every response's reward is added. */
  method TotalReward(responses: seq<SSResponse>) returns (reward: real)
    ensures reward == RewardSum(responses)
  {
    reward := 0.0;
    var i := 0;
    while i < |responses|
      invariant 0 <= i <= |responses|
      invariant reward == RewardSum(responses[..i])
    {
      assert responses[..i + 1][..i] == responses[..i];
      reward := reward + responses[i].reward;
      i := i + 1;
    }
    assert responses[..i] == responses;
  }

  /** Responses whose only nonzero reward is the first total that reward. */
  lemma {:induction false} OnlyFirstRewarded(responses: seq<SSResponse>)
    requires forall i :: 0 < i < |responses| ==> responses[i].reward == 0.0
    ensures RewardSum(responses) == if responses == [] then 0.0 else responses[0].reward
  {
    if |responses| > 1 {
      OnlyFirstRewarded(responses[..|responses| - 1]);
    }
  }

  /** A simulated slate earns exactly the reward of its first document's action in the current state. */
  lemma {:induction false} SimulatedReward(s: SSUserState, documents: seq<Document>)
    requires 0 <= s.state < NumStates
    requires SimulateResponse(s, documents).Ok?
    ensures RewardSum(SimulateResponse(s, documents).value) == ActionReward(documents[0].body.actionId, s).value
  {
    OnlyFirstRewarded(SimulateResponse(s, documents).value);
  }

  /**
   * `create_environment(env_config)` without the gym wrapper: fewer than four
   * candidates raise ValueError before anything is built; then the user
   * model, the round-robin sampler and a single-user environment, which
   * asserts `slate_size <= num_candidates`.
   */
  method CreateEnvironment(slateSize: nat, numCandidates: nat, resampleDocuments: bool, seed: int,
                           startingProbs: seq<real>, u: Unit, stream: Stream)
    returns (r: Result<SingleUserEnvironment<SSUserState, SSResponse>>)
    ensures numCandidates < 4 ==> r == Err(ValueError)
    ensures numCandidates >= 4 && !StateDistribution(startingProbs) ==> r == Err(ValueError)
    ensures r.Ok? <==> numCandidates >= 4 && StateDistribution(startingProbs) && slateSize <= numCandidates
    ensures r.Ok? ==> (fresh(r.value) && r.value.Valid()
      && r.value.user.dynamics == SSDynamics() && r.value.user.state == SSUserState(Choice(startingProbs, u))
      && r.value.env.sampler.rule == RoundRobinRule()
      && r.value.env.numCandidates == numCandidates && r.value.env.slateSize == slateSize)
  {
    if numCandidates < 4 {
      return Err(ValueError);
    }
    var user :- NewSSUserModel(slateSize, seed, startingProbs, u, stream);
    var sampler := NewRoundRobinSampler(seed);
    r := NewSingleUserEnvironment(user, sampler, numCandidates, slateSize, resampleDocuments, stream);
  }
}
