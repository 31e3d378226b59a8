// The simulation environment: the candidate pool and its snapshot, the
// single-user step and the multi-user step.
module Environment {
  import opened Basics
  import opened Spaces
  import opened Decimal
  import opened Document
  import opened User

  /** The uniform draws one user's step consumes: for its response and for its transition. */
  datatype StepNoise = StepNoise(simulate: Noise, transition: Noise)

  /** What `step` returns: the user observation, the new snapshot, the responses and `done`. */
  datatype StepResult<R> = StepResult(userObs: Value, docObs: seq<(string, Value)>, responses: seq<R>, done: bool)

  /** Python's `[doc_ids[x] for x in slate]`: the first out-of-range position raises IndexError. */
  function MapSlate(keys: seq<string>, slate: seq<int>): (r: Result<seq<string>>)
    ensures r.Ok? <==> forall i :: 0 <= i < |slate| ==> -|keys| <= slate[i] < |keys|
    ensures r.Ok? ==> (|r.value| == |slate|
      && forall i :: 0 <= i < |slate| ==> r.value[i] == PyIndex(keys, slate[i]).value)
    ensures r.Err? ==> r.error == IndexError
  {
    if slate == [] then Ok([])
    else
      var first := PyIndex(keys, slate[0]);
      if first.Err? then Err(IndexError)
      else
        var rest := MapSlate(keys, slate[1..]);
        if rest.Err? then
          assert exists i :: 0 <= i < |slate[1..]| && !(-|keys| <= slate[1..][i] < |keys|);
          Err(IndexError)
        else
          var r := [first.value] + rest.value;
          assert forall i :: 1 <= i < |slate| ==> slate[i] == slate[1..][i - 1];
          Ok(r)
  }

  /** String keys, as `get_documents` receives them from the snapshot. */
  function StrKeys(ks: seq<string>): (r: seq<DocKey>)
    ensures |r| == |ks| && forall i :: 0 <= i < |ks| ==> r[i] == StrKey(ks[i])
  {
    seq(|ks|, i requires 0 <= i < |ks| => StrKey(ks[i]))
  }

  /** A Python position into a sequence of length `n`, made non-negative. */
  function Position(n: nat, x: int): (p: nat)
    requires -(n as int) <= x < n
    ensures p < n
  {
    if x >= 0 then x else n + x
  }

  /**
   * The state `AbstractEnvironment` keeps for both environments: the document
   * sampler, the sizes, the candidate pool and the last snapshot of it
   * (absent until the first reset).
   */
  class AbstractEnvironment {
    const sampler: DocumentSampler
    const numCandidates: nat
    const slateSize: nat
    const resampleDocuments: bool
    var candidateSet: CandidateSet
    var current: Option<seq<(string, Value)>>

    /** The pool is well formed, and a snapshot, once taken, describes the current pool. */
    ghost predicate Valid()
      reads this, candidateSet
    {
      candidateSet.Valid() && (current.Some? ==> current.value == candidateSet.CreateObservation())
    }

    /** Stores the configuration and fills the first pool; no snapshot is taken yet. */
    constructor (sampler: DocumentSampler, numCandidates: nat, slateSize: nat, resampleDocuments: bool, stream: Stream)
      modifies sampler
      ensures Valid() && current.None? && fresh(candidateSet)
      ensures this.sampler == sampler && this.numCandidates == numCandidates
      ensures this.slateSize == slateSize && this.resampleDocuments == resampleDocuments
      ensures var drawn := SampleMany(sampler.rule, old(sampler.rng), old(sampler.docCount), stream, numCandidates);
        && (candidateSet.documents, candidateSet.order) == PoolOf(drawn.0)
        && sampler.rng == drawn.1 && sampler.docCount == drawn.2
    {
      this.sampler := sampler;
      this.numCandidates := numCandidates;
      this.slateSize := slateSize;
      this.resampleDocuments := resampleDocuments;
      candidateSet := new CandidateSet();
      current := None;
      new;
      DoResampleDocuments(stream);
    }

    /** `_do_resample_documents()`: a new pool holding `num_candidates` fresh draws. */
    method DoResampleDocuments(stream: Stream)
      modifies this, sampler
      ensures fresh(candidateSet) && candidateSet.Valid() && current == old(current)
      ensures var drawn := SampleMany(sampler.rule, old(sampler.rng), old(sampler.docCount), stream, numCandidates);
        && (candidateSet.documents, candidateSet.order) == PoolOf(drawn.0)
        && sampler.rng == drawn.1 && sampler.docCount == drawn.2
    {
      ghost var rng0, count0 := sampler.rng, sampler.docCount;
      var pool := new CandidateSet();
      var i := 0;
      while i < numCandidates
        modifies sampler, pool
        invariant 0 <= i <= numCandidates
        invariant fresh(pool) && pool.Valid()
        invariant var drawn := SampleMany(sampler.rule, rng0, count0, stream, i);
          && (pool.documents, pool.order) == PoolOf(drawn.0)
          && sampler.rng == drawn.1 && sampler.docCount == drawn.2
      {
        ghost var prev := SampleMany(sampler.rule, rng0, count0, stream, i);
        var d := sampler.SampleDocument(stream);
        assert SampleMany(sampler.rule, rng0, count0, stream, i + 1) == (prev.0 + [d], sampler.rng, sampler.docCount);
        pool.AddDocument(d);
        PoolOfStep(prev.0, d);
        i := i + 1;
      }
      candidateSet := pool;
    }

    /** Takes the snapshot `collections.OrderedDict(candidate_set.create_observation())`. */
    method Snapshot()
      requires candidateSet.Valid()
      modifies this
      ensures Valid() && candidateSet == old(candidateSet)
      ensures current == Some(candidateSet.CreateObservation())
    {
      current := Some(candidateSet.CreateObservation());
    }

    /**
     * The common tail of `reset` and `step`: the pool is refilled when
     * `resample_documents`, then a new snapshot is taken and returned.
     */
    method Refresh(stream: Stream) returns (docObs: seq<(string, Value)>)
      requires Valid()
      modifies this, sampler
      ensures Valid() && current == Some(docObs) && docObs == candidateSet.CreateObservation()
      ensures !resampleDocuments ==> (candidateSet == old(candidateSet)
        && sampler.rng == old(sampler.rng) && sampler.docCount == old(sampler.docCount))
      ensures resampleDocuments ==> (fresh(candidateSet)
        && var drawn := SampleMany(sampler.rule, old(sampler.rng), old(sampler.docCount), stream, numCandidates);
          (candidateSet.documents, candidateSet.order) == PoolOf(drawn.0)
          && sampler.rng == drawn.1 && sampler.docCount == drawn.2)
    {
      if resampleDocuments {
        DoResampleDocuments(stream);
      }
      Snapshot();
      docObs := current.value;
    }

    /**
     * The documents a slate serves: each position is read through the key
     * order of the last snapshot (negative positions from the end), and the
     * keys are looked up in the pool. Before the first reset there is no
     * snapshot (AttributeError); a position outside it raises IndexError.
     * Because the snapshot describes the current pool, the lookup itself
     * cannot fail.
     */
    function ServedDocuments(slate: seq<int>): (r: Result<seq<Document>>)
      requires Valid()
      reads this, candidateSet
      ensures current.None? ==> r == Err(AttributeError)
      ensures current.Some? ==> (r.Ok? <==> forall i :: 0 <= i < |slate| ==> -|candidateSet.order| <= slate[i] < |candidateSet.order|)
      ensures current.Some? && r.Err? ==> r.error == IndexError
      ensures r.Ok? ==> (|r.value| == |slate|
        && forall i :: 0 <= i < |slate| ==>
          r.value[i] == candidateSet.documents[candidateSet.order[Position(|candidateSet.order|, slate[i])]])
    {
      if current.None? then Err(AttributeError)
      else
        var keys := Keys(current.value);
        var mapped :- MapSlate(keys, slate);
        ServeFromSnapshot(candidateSet, slate, mapped);
        candidateSet.GetDocuments(StrKeys(mapped))
    }
  }

  /**
   * A slate mapped through the keys of a snapshot of `pool` names positions
   * inside the pool, and the pool returns the document at each of them.
   */
  lemma {:induction false} ServeFromSnapshot(pool: CandidateSet, slate: seq<int>, mapped: seq<string>)
    requires pool.Valid() && MapSlate(Keys(pool.CreateObservation()), slate) == Ok(mapped)
    ensures forall i :: 0 <= i < |slate| ==> -|pool.order| <= slate[i] < |pool.order|
    ensures pool.GetDocuments(StrKeys(mapped)).Ok?
    ensures var served := pool.GetDocuments(StrKeys(mapped)).value;
      |served| == |slate| && forall i :: 0 <= i < |slate| ==>
        served[i] == pool.documents[pool.order[Position(|pool.order|, slate[i])]]
  {
    SnapshotKeys(pool, pool.CreateObservation());
    SlateResolves(Keys(pool.CreateObservation()), pool.order, slate, mapped);
  }

  /** The keys of a snapshot of `pool` parse back to the pool's ids, position by position. */
  lemma {:induction false} SnapshotKeys(pool: CandidateSet, obs: seq<(string, Value)>)
    requires pool.Valid() && obs == pool.CreateObservation()
    ensures |Keys(obs)| == |pool.order|
    ensures forall j :: 0 <= j < |pool.order| ==> ParseInt(Keys(obs)[j]) == Ok(pool.order[j])
  {
  }

  /**
   * When every key parses back to the id at its position, every position a
   * slate names resolves to the id at that position.
   */
  lemma {:induction false} SlateResolves(keys: seq<string>, order: seq<int>, slate: seq<int>, mapped: seq<string>)
    requires |keys| == |order| && forall j :: 0 <= j < |keys| ==> ParseInt(keys[j]) == Ok(order[j])
    requires MapSlate(keys, slate) == Ok(mapped)
    ensures forall i :: 0 <= i < |slate| ==> -|order| <= slate[i] < |order|
    ensures |mapped| == |slate|
    ensures forall i :: 0 <= i < |slate| ==>
      KeyToId(StrKeys(mapped)[i]) == Ok(order[Position(|order|, slate[i])])
  {
    forall i | 0 <= i < |slate|
      ensures KeyToId(StrKeys(mapped)[i]) == Ok(order[Position(|order|, slate[i])])
    {
      var p := Position(|order|, slate[i]);
      assert mapped[i] == keys[p];
    }
  }

  /**
   * The user's part of a step, read from the state before it: the served
   * documents, the user's responses to them and the user's next state. The
   * first of the three that raises decides the error.
   */
  function ServeAndRespond<S, R>(env: AbstractEnvironment, user: UserModel<S, R>, slate: seq<int>, noise: StepNoise)
    : (r: Result<(seq<Document>, seq<R>, S)>)
    requires env.Valid()
    reads env, env.candidateSet, user
    ensures r.Ok? ==> (env.ServedDocuments(slate) == Ok(r.value.0)
      && user.SimulateResponse(r.value.0, noise.simulate) == Ok(r.value.1)
      && user.dynamics.transition(user.state, r.value.0, r.value.1, noise.transition) == Ok(r.value.2))
    ensures env.ServedDocuments(slate).Err? ==> r == Err(env.ServedDocuments(slate).error)
    ensures r.Err? && env.ServedDocuments(slate).Ok? ==>
      var documents := env.ServedDocuments(slate).value;
      var simulated := user.SimulateResponse(documents, noise.simulate);
      (simulated.Err? && r.error == simulated.error)
      || (simulated.Ok? && user.dynamics.transition(user.state, documents, simulated.value, noise.transition) == Err(r.error))
  {
    var documents :- env.ServedDocuments(slate);
    var responses :- user.SimulateResponse(documents, noise.simulate);
    var next :- user.dynamics.transition(user.state, documents, responses, noise.transition);
    Ok((documents, responses, next))
  }

  /** `SingleUserEnvironment` (also exported as `Environment`): one user model and the pool. */
  class SingleUserEnvironment<S, R> {
    const env: AbstractEnvironment
    const user: UserModel<S, R>

    ghost predicate Valid()
      reads this, env, env.candidateSet
    {
      env.Valid()
    }

    constructor Build(env: AbstractEnvironment, user: UserModel<S, R>)
      requires env.Valid()
      ensures this.env == env && this.user == user && Valid()
    {
      this.env := env;
      this.user := user;
    }

    /**
     * `reset()`: a fresh user, a refilled pool when `resample_documents`,
     * then a new snapshot. Returns the user observation and the snapshot.
     */
    method Reset(stream: Stream) returns (userObs: Value, docObs: seq<(string, Value)>)
      requires Valid()
      modifies env, env.sampler, user, user.sampler
      ensures Valid()
      ensures (user.state, user.sampler.rng) == user.sampler.rule(old(user.sampler.rng), stream)
      ensures userObs == user.dynamics.observe(user.state)
      ensures !env.resampleDocuments ==> (env.candidateSet == old(env.candidateSet)
        && env.sampler.rng == old(env.sampler.rng) && env.sampler.docCount == old(env.sampler.docCount))
      ensures env.resampleDocuments ==> (fresh(env.candidateSet)
        && var drawn := SampleMany(env.sampler.rule, old(env.sampler.rng), old(env.sampler.docCount), stream, env.numCandidates);
          (env.candidateSet.documents, env.candidateSet.order) == PoolOf(drawn.0)
          && env.sampler.rng == drawn.1 && env.sampler.docCount == drawn.2)
      ensures env.current == Some(docObs) && docObs == env.candidateSet.CreateObservation()
    {
      user.Reset(stream);
      userObs := user.CreateObservation();
      docObs := env.Refresh(stream);
    }

    /** `reset_sampler()`: reseed the document sampler and the user sampler. */
    method ResetSampler()
      modifies env.sampler, user.sampler
      ensures env.sampler.rng == Seeded(env.sampler.seed) && env.sampler.docCount == old(env.sampler.docCount)
      ensures user.sampler.rng == Seeded(user.sampler.seed)
    {
      env.sampler.ResetSampler();
      user.ResetSampler();
    }

    /**
     * `step(slate)`. An oversized slate is rejected before anything changes;
     * so is a position outside the snapshot and a response the user model
     * cannot produce. Otherwise, in order: the user responds, the user state
     * is updated, the observation and `done` are read from the new state,
     * the pool is refilled when `resample_documents`, and a new snapshot is
     * taken. The document sampler's update hook is a no-op here.
     */
    method Step(slate: seq<int>, noise: StepNoise, stream: Stream) returns (r: Result<StepResult<R>>)
      requires Valid()
      modifies env, env.sampler, user
      ensures Valid()
      ensures |slate| > env.slateSize ==> r == Err(AssertionError)
      ensures r.Err? ==> (user.state == old(user.state) && env.candidateSet == old(env.candidateSet)
        && env.current == old(env.current)
        && env.sampler.rng == old(env.sampler.rng) && env.sampler.docCount == old(env.sampler.docCount))
      ensures |slate| <= env.slateSize ==> (r.Ok? <==> old(ServeAndRespond(env, user, slate, noise)).Ok?)
      ensures r.Ok? ==> var served := old(ServeAndRespond(env, user, slate, noise)).value;
        && r.value.responses == served.1
        && user.state == served.2
        && r.value.userObs == user.dynamics.observe(user.state)
        && r.value.done == user.dynamics.terminal(user.state)
        && env.current == Some(r.value.docObs)
        && (!env.resampleDocuments ==> (env.candidateSet == old(env.candidateSet)
              && env.sampler.rng == old(env.sampler.rng) && env.sampler.docCount == old(env.sampler.docCount)))
        && (env.resampleDocuments ==> (fresh(env.candidateSet)
              && var drawn := SampleMany(env.sampler.rule, old(env.sampler.rng), old(env.sampler.docCount), stream, env.numCandidates);
                (env.candidateSet.documents, env.candidateSet.order) == PoolOf(drawn.0)
                && env.sampler.rng == drawn.1 && env.sampler.docCount == drawn.2))
    {
      if |slate| > env.slateSize {
        return Err(AssertionError);
      }
      var served := ServeAndRespond(env, user, slate, noise);
      if served.Err? {
        return Err(served.error);
      }
      var documents, responses := served.value.0, served.value.1;
      var updated := user.UpdateState(documents, responses, noise.transition);
      assert updated.Ok?;
      var userObs := user.CreateObservation();
      var done := user.IsTerminal();
      var docObs := env.Refresh(stream);
      return Ok(StepResult(userObs, docObs, responses, done));
    }

    /**
     * `step(slate)` as the code is written: after the user update it calls
     * `update_state` on the document sampler, which the sampler class does
     * not define, so every step that gets that far raises AttributeError
     * with the user state already advanced.
     */
    method StepAsWritten(slate: seq<int>, noise: StepNoise) returns (r: Result<StepResult<R>>)
      requires Valid()
      modifies user
      ensures r.Err?
      ensures |slate| <= env.slateSize && old(ServeAndRespond(env, user, slate, noise)).Ok? ==>
        var served := old(ServeAndRespond(env, user, slate, noise)).value;
        r.error == AttributeError && user.state == served.2
    {
      if |slate| > env.slateSize {
        return Err(AssertionError);
      }
      var served := ServeAndRespond(env, user, slate, noise);
      if served.Err? {
        return Err(served.error);
      }
      var updated := user.UpdateState(served.value.0, served.value.1, noise.transition);
      assert updated.Ok?;
      return Err(AttributeError);
    }
  }

  /**
   * One user's part of a multi-user step, read from the state before it:
   * the slate is resolved first; a terminal user then gets no responses and
   * keeps its state, any other user responds and transitions.
   */
  function UserTurn<S, R>(env: AbstractEnvironment, user: UserModel<S, R>, slate: seq<int>, noise: StepNoise)
    : (r: Result<(seq<R>, S)>)
    requires env.Valid()
    reads env, env.candidateSet, user
    ensures env.ServedDocuments(slate).Err? ==> r == Err(env.ServedDocuments(slate).error)
    ensures r.Ok? && user.IsTerminal() ==> r.value == ([], user.state)
    ensures !user.IsTerminal() ==> r == (var served :- ServeAndRespond(env, user, slate, noise); Ok((served.1, served.2)))
  {
    var documents :- env.ServedDocuments(slate);
    if user.IsTerminal() then Ok(([], user.state))
    else
      var responses :- user.SimulateResponse(documents, noise.simulate);
      var next :- user.dynamics.transition(user.state, documents, responses, noise.transition);
      Ok((responses, next))
  }

  /** What the multi-user `step` returns: one observation and one response list per user. */
  datatype MultiStepResult<R> = MultiStepResult(userObs: seq<Value>, docObs: seq<(string, Value)>, responses: seq<seq<R>>, done: bool)

  /** `MultiUserEnvironment`: a list of user models sharing one pool. */
  class MultiUserEnvironment<S, R> {
    const env: AbstractEnvironment
    const users: seq<UserModel<S, R>>

    /** The users are distinct objects with distinct samplers. */
    ghost predicate Valid()
      reads this, env, env.candidateSet
    {
      && env.Valid()
      && Distinct(users)
      && forall i, j :: 0 <= i < j < |users| ==> users[i].sampler != users[j].sampler
    }

    constructor Build(env: AbstractEnvironment, users: seq<UserModel<S, R>>)
      requires env.Valid() && Distinct(users)
      requires forall i, j :: 0 <= i < j < |users| ==> users[i].sampler != users[j].sampler
      ensures this.env == env && this.users == users && Valid()
    {
      this.env := env;
      this.users := users;
    }

    /** Every user's `create_observation()`, in list order. */
    function Observations(): (obs: seq<Value>)
      reads set u | u in users
      ensures |obs| == |users| && forall k :: 0 <= k < |users| ==> obs[k] == users[k].dynamics.observe(users[k].state)
    {
      seq(|users|, k requires 0 <= k < |users| reads set u | u in users => users[k].CreateObservation())
    }

    /** `num_users`. */
    function NumUsers(): (n: nat)
      ensures n == |users|
    {
      |users|
    }

    /** `reset()`: every user is resampled in list order, then the pool as in the single-user case. */
    method Reset(stream: Stream) returns (userObs: seq<Value>, docObs: seq<(string, Value)>)
      requires Valid()
      modifies env, env.sampler, set u | u in users, set u | u in users :: u.sampler
      ensures Valid()
      ensures |userObs| == |users|
      ensures forall k :: 0 <= k < |users| ==>
        (users[k].state, users[k].sampler.rng) == users[k].sampler.rule(old(users[k].sampler.rng), stream)
        && userObs[k] == users[k].dynamics.observe(users[k].state)
      ensures !env.resampleDocuments ==> (env.candidateSet == old(env.candidateSet)
        && env.sampler.rng == old(env.sampler.rng) && env.sampler.docCount == old(env.sampler.docCount))
      ensures env.resampleDocuments ==> (fresh(env.candidateSet)
        && var drawn := SampleMany(env.sampler.rule, old(env.sampler.rng), old(env.sampler.docCount), stream, env.numCandidates);
          (env.candidateSet.documents, env.candidateSet.order) == PoolOf(drawn.0)
          && env.sampler.rng == drawn.1 && env.sampler.docCount == drawn.2)
      ensures env.current == Some(docObs) && docObs == env.candidateSet.CreateObservation()
    {
      ResetUsers(stream);
      userObs := Observations();
      docObs := env.Refresh(stream);
    }

    /** The user half of `reset()`: each user draws a fresh state from its own sampler, in list order. */
    method ResetUsers(stream: Stream)
      requires Valid()
      modifies set u | u in users, set u | u in users :: u.sampler
      ensures forall k :: 0 <= k < |users| ==>
        (users[k].state, users[k].sampler.rng) == users[k].sampler.rule(old(users[k].sampler.rng), stream)
    {
      var i := 0;
      while i < |users|
        modifies set u | u in users, set u | u in users :: u.sampler
        invariant 0 <= i <= |users|
        invariant forall k :: 0 <= k < i ==>
          (users[k].state, users[k].sampler.rng) == users[k].sampler.rule(old(users[k].sampler.rng), stream)
        invariant forall k :: i <= k < |users| ==> users[k].sampler.rng == old(users[k].sampler.rng)
      {
        users[i].Reset(stream);
        i := i + 1;
      }
    }

    /** `reset_sampler()`: the document sampler, then every user's sampler. */
    method ResetSampler()
      modifies env.sampler, set u | u in users :: u.sampler
      ensures env.sampler.rng == Seeded(env.sampler.seed) && env.sampler.docCount == old(env.sampler.docCount)
      ensures forall k :: 0 <= k < |users| ==> users[k].sampler.rng == Seeded(users[k].sampler.seed)
    {
      env.sampler.ResetSampler();
      var i := 0;
      while i < |users|
        modifies set u | u in users :: u.sampler
        invariant 0 <= i <= |users|
        invariant forall k :: 0 <= k < i ==> users[k].sampler.rng == Seeded(users[k].sampler.seed)
      {
        users[i].ResetSampler();
        i := i + 1;
      }
    }

    /**
     * `step(slates)`. The number of slates and every slate's length are
     * checked before any user is touched. Users then take their turns in
     * list order; an error in one turn leaves the earlier users advanced and
     * the later ones untouched. `done` holds when every user is terminal
     * afterwards; the pool is refilled and snapshotted as in the single-user
     * step, and the document sampler's update hook is a no-op.
     */
    method Step(slates: seq<seq<int>>, noises: seq<StepNoise>, stream: Stream) returns (r: Result<MultiStepResult<R>>)
      requires Valid() && |noises| == |slates|
      modifies env, env.sampler, set u | u in users
      ensures Valid()
      ensures |slates| != |users| ==> r == Err(AssertionError)
      ensures (exists i :: 0 <= i < |slates| && |slates[i]| > env.slateSize) ==> r == Err(AssertionError)
      ensures r.Err? ==> (env.candidateSet == old(env.candidateSet) && env.current == old(env.current)
        && env.sampler.rng == old(env.sampler.rng) && env.sampler.docCount == old(env.sampler.docCount))
      ensures r.Err? && |slates| == |users| && (forall i :: 0 <= i < |slates| ==> |slates[i]| <= env.slateSize) ==>
        exists j :: 0 <= j < |users|
          && old(UserTurn(env, users[j], slates[j], noises[j])) == Err(r.error)
          && (forall k :: 0 <= k < j ==> (old(UserTurn(env, users[k], slates[k], noises[k])).Ok?
                && users[k].state == old(UserTurn(env, users[k], slates[k], noises[k])).value.1))
          && (forall k :: j <= k < |users| ==> users[k].state == old(users[k].state))
      ensures r.Ok? ==> (|slates| == |users|
        && |r.value.responses| == |users| && |r.value.userObs| == |users|
        && (forall k :: 0 <= k < |users| ==>
          && old(UserTurn(env, users[k], slates[k], noises[k])).Ok?
          && r.value.responses[k] == old(UserTurn(env, users[k], slates[k], noises[k])).value.0
          && users[k].state == old(UserTurn(env, users[k], slates[k], noises[k])).value.1
          && r.value.userObs[k] == users[k].dynamics.observe(users[k].state))
        && (r.value.done <==> forall k :: 0 <= k < |users| ==> users[k].dynamics.terminal(users[k].state))
        && env.current == Some(r.value.docObs)
        && (!env.resampleDocuments ==> (env.candidateSet == old(env.candidateSet)
              && env.sampler.rng == old(env.sampler.rng) && env.sampler.docCount == old(env.sampler.docCount)))
        && (env.resampleDocuments ==> (fresh(env.candidateSet)
              && var drawn := SampleMany(env.sampler.rule, old(env.sampler.rng), old(env.sampler.docCount), stream, env.numCandidates);
                (env.candidateSet.documents, env.candidateSet.order) == PoolOf(drawn.0)
                && env.sampler.rng == drawn.1 && env.sampler.docCount == drawn.2)))
    {
      if |slates| != |users| {
        return Err(AssertionError);
      }
      if exists i :: 0 <= i < |slates| && |slates[i]| > env.slateSize {
        return Err(AssertionError);
      }
      var turns := TakeTurns(slates, noises);
      if turns.Err? {
        return Err(turns.error);
      }
      var result := Finish(turns.value, stream);
      return Ok(result);
    }

    /**
     * The end of a successful step: the users' observations and `done` are
     * read, then the pool is refilled and snapshotted. No user changes.
     */
    method Finish(responses: seq<seq<R>>, stream: Stream) returns (result: MultiStepResult<R>)
      requires Valid()
      modifies env, env.sampler
      ensures Valid()
      ensures result.responses == responses && |result.userObs| == |users|
      ensures forall k :: 0 <= k < |users| ==> result.userObs[k] == users[k].dynamics.observe(users[k].state)
      ensures result.done <==> forall k :: 0 <= k < |users| ==> users[k].dynamics.terminal(users[k].state)
      ensures env.current == Some(result.docObs)
      ensures !env.resampleDocuments ==> (env.candidateSet == old(env.candidateSet)
        && env.sampler.rng == old(env.sampler.rng) && env.sampler.docCount == old(env.sampler.docCount))
      ensures env.resampleDocuments ==> (fresh(env.candidateSet)
        && var drawn := SampleMany(env.sampler.rule, old(env.sampler.rng), old(env.sampler.docCount), stream, env.numCandidates);
          (env.candidateSet.documents, env.candidateSet.order) == PoolOf(drawn.0)
          && env.sampler.rng == drawn.1 && env.sampler.docCount == drawn.2)
    {
      var userObs := Observations();
      var done := forall k :: 0 <= k < |users| ==> users[k].IsTerminal();
      var docObs := env.Refresh(stream);
      result := MultiStepResult(userObs, docObs, responses, done);
    }

    /**
     * `step(slates)` as the code is written: after every user's turn it calls
     * `update_state` on the document sampler, which the sampler class does
     * not define, so every step that gets that far raises AttributeError
     * with all the users already advanced.
     */
    method StepAsWritten(slates: seq<seq<int>>, noises: seq<StepNoise>) returns (r: Result<MultiStepResult<R>>)
      requires Valid() && |noises| == |slates|
      modifies set u | u in users
      ensures r.Err?
      ensures |slates| == |users| && (forall i :: 0 <= i < |slates| ==> |slates[i]| <= env.slateSize)
              && (forall k :: 0 <= k < |users| ==> old(UserTurn(env, users[k], slates[k], noises[k])).Ok?) ==>
        && r.error == AttributeError
        && forall k :: 0 <= k < |users| ==> users[k].state == old(UserTurn(env, users[k], slates[k], noises[k])).value.1
    {
      if |slates| != |users| {
        return Err(AssertionError);
      }
      if exists i :: 0 <= i < |slates| && |slates[i]| > env.slateSize {
        return Err(AssertionError);
      }
      var turns := TakeTurns(slates, noises);
      if turns.Err? {
        return Err(turns.error);
      }
      return Err(AttributeError);
    }

    /**
     * The user half of `step(slates)`: each user takes its turn in list
     * order, each turn read from the state the step started in. The first
     * failing turn stops the step, with the earlier users advanced and the
     * later ones untouched.
     */
    method TakeTurns(slates: seq<seq<int>>, noises: seq<StepNoise>) returns (r: Result<seq<seq<R>>>)
      requires Valid() && |slates| == |users| && |noises| == |users|
      modifies set u | u in users
      ensures r.Err? ==> exists j :: (0 <= j < |users|
        && old(UserTurn(env, users[j], slates[j], noises[j])) == Err(r.error)
        && (forall k :: 0 <= k < j ==> (old(UserTurn(env, users[k], slates[k], noises[k])).Ok?
              && users[k].state == old(UserTurn(env, users[k], slates[k], noises[k])).value.1))
        && (forall k :: j <= k < |users| ==> users[k].state == old(users[k].state)))
      ensures r.Ok? ==> (|r.value| == |users|
        && forall k :: 0 <= k < |users| ==>
          && old(UserTurn(env, users[k], slates[k], noises[k])).Ok?
          && r.value[k] == old(UserTurn(env, users[k], slates[k], noises[k])).value.0
          && users[k].state == old(UserTurn(env, users[k], slates[k], noises[k])).value.1)
    {
      var responses: seq<seq<R>> := [];
      var i := 0;
      while i < |users|
        modifies set u | u in users
        invariant 0 <= i <= |users| && |responses| == i
        invariant forall k :: 0 <= k < i ==>
          && old(UserTurn(env, users[k], slates[k], noises[k])).Ok?
          && responses[k] == old(UserTurn(env, users[k], slates[k], noises[k])).value.0
          && users[k].state == old(UserTurn(env, users[k], slates[k], noises[k])).value.1
        invariant forall k :: i <= k < |users| ==> users[k].state == old(users[k].state)
      {
        var user := users[i];
        assert UserTurn(env, user, slates[i], noises[i]) == old(UserTurn(env, users[i], slates[i], noises[i]));
        var documents := env.ServedDocuments(slates[i]);
        if documents.Err? {
          return Err(documents.error);
        }
        var turn: seq<R> := [];
        if !user.IsTerminal() {
          var simulated := user.SimulateResponse(documents.value, noises[i].simulate);
          if simulated.Err? {
            return Err(simulated.error);
          }
          turn := simulated.value;
          var updated := user.UpdateState(documents.value, turn, noises[i].transition);
          if updated.Err? {
            return Err(updated.error);
          }
        }
        responses := responses + [turn];
        i := i + 1;
      }
      return Ok(responses);
    }
  }

  /**
   * The environment built as `SingleUserEnvironment(...)`: the pool is filled
   * first, then `slate_size <= num_candidates` is asserted.
   */
  method NewSingleUserEnvironment<S, R>(user: UserModel<S, R>, sampler: DocumentSampler, numCandidates: nat,
                                        slateSize: nat, resampleDocuments: bool, stream: Stream)
    returns (r: Result<SingleUserEnvironment<S, R>>)
    modifies sampler
    ensures r.Ok? <==> slateSize <= numCandidates
    ensures r.Err? ==> r.error == AssertionError
    ensures sampler.rng == SampleMany(sampler.rule, old(sampler.rng), old(sampler.docCount), stream, numCandidates).1
    ensures r.Ok? ==> (fresh(r.value) && fresh(r.value.env) && r.value.Valid() && r.value.user == user
      && r.value.env.sampler == sampler && r.value.env.current.None?
      && r.value.env.numCandidates == numCandidates && r.value.env.slateSize == slateSize
      && r.value.env.resampleDocuments == resampleDocuments)
  {
    var env := new AbstractEnvironment(sampler, numCandidates, slateSize, resampleDocuments, stream);
    if slateSize > numCandidates {
      return Err(AssertionError);
    }
    var e := new SingleUserEnvironment.Build(env, user);
    return Ok(e);
  }

  /**
   * `MultiUserEnvironment(user_models, ...)`: the same constructor as the
   * single-user one, given a list of distinct user models.
   */
  method NewMultiUserEnvironment<S, R>(users: seq<UserModel<S, R>>, sampler: DocumentSampler, numCandidates: nat,
                                       slateSize: nat, resampleDocuments: bool, stream: Stream)
    returns (r: Result<MultiUserEnvironment<S, R>>)
    requires Distinct(users)
    requires forall i, j :: 0 <= i < j < |users| ==> users[i].sampler != users[j].sampler
    modifies sampler
    ensures r.Ok? <==> slateSize <= numCandidates
    ensures r.Err? ==> r.error == AssertionError
    ensures sampler.rng == SampleMany(sampler.rule, old(sampler.rng), old(sampler.docCount), stream, numCandidates).1
    ensures r.Ok? ==> (fresh(r.value) && fresh(r.value.env) && r.value.Valid() && r.value.users == users
      && r.value.env.sampler == sampler && r.value.env.current.None?
      && r.value.env.numCandidates == numCandidates && r.value.env.slateSize == slateSize
      && r.value.env.resampleDocuments == resampleDocuments)
  {
    var env := new AbstractEnvironment(sampler, numCandidates, slateSize, resampleDocuments, stream);
    if slateSize > numCandidates {
      return Err(AssertionError);
    }
    var e := new MultiUserEnvironment.Build(env, users);
    return Ok(e);
  }
}
