// The user side of the simulator: a seeded sampler of initial user states and
// the user model that owns the current state, generic over the concrete
// environment's user state `S` and response `R`.
module User {
  import opened Basics
  import opened Spaces
  import opened Document
  import ChoiceModel

  /**
   * The draws from the global numpy generator that a user-model operation
   * consumes, in order.
   */
  type Noise = seq<Unit>

  /** Draw `k` of the supplied noise; a draw that was not supplied reads as 0. */
  function NoiseAt(noise: Noise, k: nat): (u: Unit)
    ensures k < |noise| ==> u == noise[k]
  {
    AtOr(noise, k, 0.0)
  }

  /**
   * How a concrete user model's `simulate_response` begins: its choice model
   * scores the observations of the slate's documents under the user state,
   * and `choose_item` draws with the first noise draw. The result is a slate
   * position or None.
   */
  function SlateChoice<S>(exp: real -> real, kind: ChoiceModel.ChoiceKind, score: (S, Value) -> Result<real>, state: S,
                          documents: seq<Document>, noise: Noise): (r: Result<Option<nat>>)
    requires ChoiceModel.ExpPositive(exp)
    ensures r.Ok? ==> ChoiceModel.ScoreSlate(exp, kind, score, state, DocObservations(documents)).Ok?
    ensures r.Ok? && r.value.Some? ==> r.value.value < |documents|
  {
    ChoiceModel.ChooseFrom(exp, kind, score, state, DocObservations(documents), NoiseAt(noise, 0))
  }

  /**
   * The behaviour a concrete user model adds to the abstract one: its
   * response to a slate and its state transition (either may raise), its
   * terminal predicate and the observation of its state.
   */
  datatype Dynamics<!S, !R> = Dynamics(
    simulate: (S, seq<Document>, Noise) -> Result<seq<R>>,
    transition: (S, seq<Document>, seq<R>, Noise) -> Result<S>,
    terminal: S -> bool,
    observe: S -> Value)

  /** How a concrete sampler draws a user state from its generator. */
  type UserRule<S> = (RandomState, Stream) -> (S, RandomState)

  /** A user sampler: its seed and the generator built from it. */
  class UserSampler<S> {
    const seed: int
    const rule: UserRule<S>
    var rng: RandomState

    /** The constructor stores the seed and resets the generator from it. */
    constructor (seed: int, rule: UserRule<S>)
      ensures this.seed == seed && this.rule == rule && rng == Seeded(seed)
    {
      this.seed := seed;
      this.rule := rule;
      rng := Seeded(seed);
    }

    /** `reset_sampler()`: a generator freshly seeded with the stored seed. */
    method ResetSampler()
      modifies this
      ensures rng == Seeded(seed)
    {
      rng := Seeded(seed);
    }

    /** `sample_user()`: the concrete rule on the current generator. */
    method SampleUser(stream: Stream) returns (s: S)
      modifies this
      ensures (s, rng) == rule(old(rng), stream)
    {
      var next := rule(rng, stream);
      s := next.0;
      rng := next.1;
    }
  }

  /** A user model: the current user state, the sampler it came from, and the slate size. */
  class UserModel<S, R> {
    const sampler: UserSampler<S>
    const responseSpace: Space
    const slateSize: nat
    const dynamics: Dynamics<S, R>
    var state: S

    /**
     * The part of the constructor that runs once the response constructor
     * is known to be present: the first user state is drawn from the sampler.
     */
    constructor (sampler: UserSampler<S>, responseSpace: Space, slateSize: nat, dynamics: Dynamics<S, R>, stream: Stream)
      modifies sampler
      ensures this.sampler == sampler && this.responseSpace == responseSpace
      ensures this.slateSize == slateSize && this.dynamics == dynamics
      ensures (state, sampler.rng) == sampler.rule(old(sampler.rng), stream)
    {
      var s := sampler.SampleUser(stream);
      this.sampler := sampler;
      this.responseSpace := responseSpace;
      this.slateSize := slateSize;
      this.dynamics := dynamics;
      state := s;
    }

    /** `reset()`: a fresh user from the sampler, which is not reseeded. */
    method Reset(stream: Stream)
      modifies this, sampler
      ensures (state, sampler.rng) == sampler.rule(old(sampler.rng), stream)
    {
      state := sampler.SampleUser(stream);
    }

    /** `reset_sampler()`: delegates to the sampler; the current user is kept. */
    method ResetSampler()
      modifies sampler
      ensures sampler.rng == Seeded(sampler.seed)
    {
      sampler.ResetSampler();
    }

    /** `response_space()`: a tuple of `slate_size` copies of the single-response space. */
    function ResponseSpace(): (sp: Space)
      ensures sp.TupleSpace? && |sp.parts| == slateSize
      ensures forall i :: 0 <= i < slateSize ==> sp.parts[i] == responseSpace
    {
      TupleSpace(Repeat(responseSpace, slateSize))
    }

    /** `create_observation()`: the current user state's observation. */
    function CreateObservation(): Value
      reads this
    {
      dynamics.observe(state)
    }

    /** `is_terminal()` of the current state. */
    function IsTerminal(): bool
      reads this
    {
      dynamics.terminal(state)
    }

    /** `simulate_response(documents)` from the current state; it leaves the state alone. */
    function SimulateResponse(documents: seq<Document>, noise: Noise): Result<seq<R>>
      reads this
    {
      dynamics.simulate(state, documents, noise)
    }

    /**
     * `update_state(documents, responses)`: the concrete transition. When it
     * raises, the state is left as it was.
     */
    method UpdateState(documents: seq<Document>, responses: seq<R>, noise: Noise) returns (r: Result<()>)
      modifies this
      ensures var next := dynamics.transition(old(state), documents, responses, noise);
        && (r.Ok? <==> next.Ok?)
        && (next.Ok? ==> state == next.value)
        && (next.Err? ==> state == old(state) && r.error == next.error)
    {
      var next := dynamics.transition(state, documents, responses, noise);
      if next.Err? {
        return Err(next.error);
      }
      state := next.value;
      return Ok(());
    }
  }

  /**
   * The full user-model constructor. A missing response constructor raises
   * TypeError before the sampler is touched; otherwise the model starts from
   * a sampled user.
   */
  method NewUserModel<S, R>(responseCtor: Option<Space>, sampler: UserSampler<S>, slateSize: nat,
                            dynamics: Dynamics<S, R>, stream: Stream)
    returns (r: Result<UserModel<S, R>>)
    modifies sampler
    ensures r.Err? <==> responseCtor.None?
    ensures r.Err? ==> r.error == TypeError && sampler.rng == old(sampler.rng)
    ensures r.Ok? ==> (fresh(r.value) && r.value.sampler == sampler
      && r.value.responseSpace == responseCtor.value && r.value.slateSize == slateSize
      && r.value.dynamics == dynamics
      && (r.value.state, sampler.rng) == sampler.rule(old(sampler.rng), stream))
  {
    if responseCtor.None? {
      return Err(TypeError);
    }
    var m := new UserModel(sampler, responseCtor.value, slateSize, dynamics, stream);
    return Ok(m);
  }
}
