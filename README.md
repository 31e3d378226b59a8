# RecSim core, modelled in Dafny

This project models the deterministic core of RecSim, a simulation platform
for recommender systems in which an agent recommends slates of documents to
simulated users. It covers both sides of that interaction.

The simulator side:

- the **candidate pool** (`CandidateSet`): documents keyed by id, with add,
  remove, ordered lookup and the observation keyed by `str(id)`; and the seeded
  **document samplers** that fill it;
- the **choice models**: softmax, multinomial logit and proportional models,
  and the exponential and proportional cascades with their positional
  normalization; `choose_item` draws from scores plus the no-click score as
  one categorical distribution;
- the **user model lifecycle**: a seeded user sampler, the constructor
  checks, `reset`, `reset_sampler` and the response space;
- the **environment state machine**: the single-user and multi-user `reset`
  and `step`, with the slate check, the positions-to-ids mapping through the
  previous snapshot, simulation, the user update, the terminal check and
  optional resampling;
- the four **concrete environments**: interest evolution, interest
  exploration, long-term satisfaction and the simple sequential test
  environment, each with its user state, document sampler, response and
  reward functions;
- the **video-cluster metrics** aggregated per step and the summaries
  written from them.

The agent side:

- the episodic agent's episode counter and checkpoint bundles, and the
  hierarchical layer's bundle of its base agents' bundles;
- the space walker and the epsilon-greedy and minimum-count exploration
  rules;
- the tabular Q-learning agent: discretization, slate enumeration, the
  Q-value and visit-count update, and its episode end and checkpoints;
- the multi-armed bandit algorithms' pull and reward arrays, the reward
  check and the "pull every arm once first" rule;
- the sufficient-statistics layers: per-cluster click and impression counts,
  and the fixed-length history shift buffer;
- the click-bandit layer's arm ordering, collection loop and slate packing;
  the cluster bandit agent and its greedy per-cluster arms;
- the greedy pCTR agent's top-k selection and the random agent's shuffle.

Objects whose fields the Python code updates in place (the pool, samplers,
user models, environments, agents, layers, bandit arrays, the metrics dict)
are Dafny classes whose methods state their whole new state, each proved
against a specification function about which the properties are proved as
lemmas. Pure computations (scores, normalizations, rankings, rewards) are
functions.

Modelling conventions:

- Python floats are `real`. `exp`, `log`, `sqrt`, the sigmoid and the
  Gaussian and lognormal draws are supplied functions; where the source needs
  it, `exp` is assumed positive.
- A numpy generator is a `RandomState(seed, position)` value.
  `reset_sampler` rebuilds it at position 0. The uniform values it yields
  come from a `Stream` function of seed and position, so two generators with
  the same seed give the same draws. Draws from numpy's global generator are
  method parameters.
- Python exceptions are the `Err` side of a `Result`; an operation that
  raises after changing some state changes exactly that state in the model.
- Observations (dicts, tuples, numpy arrays, scalars, None) are one closed
  `Value` datatype, and gym spaces a `Space` datatype.

## Model

| member | source | states |
|---|---|---|
| Decimal.ParseIntToString | recsim/document.py:64 | reading back a printed id gives the id: `int(str(n)) == n` for every integer |
| Decimal.IntToStringInjective | recsim/document.py:76-78 | distinct ids print to distinct strings, so the observation's `str(k)` keys never collide |
| Decimal.ParseInt | recsim/document.py:64 | `int(s)` accepts an optional sign followed by one or more digits and rejects any other string with ValueError |
| Document.DocObservations | recsim/document.py:76-78 | one observation per document, each the document's own `create_observation()`, in order |
| Document.KeyToId | recsim/document.py:64 | an integer key is used as is; a string key is `int(k)`, with ValueError for a string that is not an integer |
| Document.CandidateSet.constructor | recsim/document.py:41-43 | a new candidate set holds no documents |
| Document.CandidateSet.Size | recsim/document.py:45-47 | `size()` is the number of stored documents, which is the number of keys |
| Document.CandidateSet.GetDocuments | recsim/document.py:53-64 | on success one document per requested id, in request order, each the stored document of `int(k)`; otherwise the first id that is not an integer string raises ValueError and the first absent id raises KeyError; the pool is not changed |
| Document.CandidateSet.FirstFailureShifts | recsim/document.py:64 | the first failing id after a resolving first id is the first failing id of the whole request |
| Document.CandidateSet.GetAllDocuments | recsim/document.py:49-51 | every stored document, in key order, and nothing else |
| Document.CandidateSet.AddDocument | recsim/document.py:66-68 | the document is stored under its id; a new id is appended to the key order and the size grows by one; a colliding id overwrites the old entry in place and the size is unchanged; other entries are unchanged |
| Document.CandidateSet.RemoveDocument | recsim/document.py:70-72 | an absent id raises KeyError and changes nothing; otherwise exactly that id is deleted, the size drops by one and the other entries and their order are unchanged |
| Document.CandidateSet.CreateObservation | recsim/document.py:74-79 | one entry per stored document, keyed by `str(id)` in key order, holding that document's observation; the keys are distinct and each parses back to its id |
| Document.ObservationKeysReadBack | recsim/document.py:64-79 | `get_documents` on the keys of the pool's observation returns the stored documents in key order |
| Document.DocumentSampler.constructor | recsim/document.py:93-99 | the sampler keeps its seed and starts from the generator that seed builds; `num_clusters` is 0 |
| Document.DocumentSampler.WithClusters | recsim/document.py:93-112 | as the base constructor, for a sampler class that overrides `num_clusters` |
| Document.DocumentSampler.ResetSampler | recsim/document.py:98-99 | the generator is rebuilt from the stored seed and the document counter is kept |
| Document.DocumentSampler.SampleDocument | recsim/document.py:101-103 | the document, next generator and next counter are the concrete sampler's rule applied to the current generator and counter |
| Document.SampleMany | recsim/document.py:101-103 | `n` successive draws give exactly `n` documents |
| Document.CounterIds | recsim/document.py:101-103 | a sampler numbering documents with its counter draws the ids c, c+1, ..., c+n-1 and leaves the counter at c+n |
| Document.PoolOf | recsim/document.py:66-68 | adding documents one by one leaves a map whose keys are exactly the key order, each entry stored under its own id, with no key twice |
| Document.PoolOfDistinct | recsim/document.py:66-68 | with distinct ids nothing is overwritten: the key order is the order of addition and every document is kept |
| Document.FreshPool | recsim/document.py:66-103 | refilling the pool from a counter-numbered sampler stores exactly `n` documents with ids count, ..., count+n-1, in that key order, all new |
| Document.ResetSamplersAgree | recsim/document.py:96-103 | two distinct samplers with the same seed, rule and counter, whatever they drew before, each draw the same document after `reset_sampler`, namely the rule applied to the seed's fresh generator, and are left with the same generator and counter |
| User.UserSampler.constructor | recsim/user.py:68-83 | the sampler keeps its seed and starts from the generator that seed builds |
| User.UserSampler.ResetSampler | recsim/user.py:82-83 | the generator is rebuilt from the stored seed |
| User.UserSampler.SampleUser | recsim/user.py:85-87 | the user state and next generator are the concrete sampler's rule on the current generator |
| User.UserModel.constructor | recsim/user.py:113-116 | the first user state, and the sampler's next generator, are one draw of the sampler's rule |
| User.NewUserModel | recsim/user.py:99-116 | a missing response constructor raises TypeError and leaves the sampler untouched; otherwise a new model starts from one sampled user |
| User.UserModel.Reset | recsim/user.py:129-131 | the state is replaced by a fresh draw from the sampler's current generator, which is not reseeded |
| User.UserModel.ResetSampler | recsim/user.py:133-135 | the sampler's generator is rebuilt from its seed; the current user state is kept |
| User.UserModel.ResponseSpace | recsim/user.py:156-160 | a tuple of exactly `slate_size` parts, each the single-response space |
| User.UserModel.UpdateState | recsim/user.py:119-127 | the state becomes the concrete transition's result; when the transition raises, the error is returned and the state is unchanged |
| User.SlateChoice | recsim/environments/interest_evolution.py:575-577 | the choice model's pick for a slate, as every concrete `simulate_response` makes it, exists only when the slate's observations score, and is None or a position of the slate |
| ChoiceModel.Softmax | recsim/choice_model.py:26-30 | defined exactly when the vector is non-empty (`np.max` of an empty vector raises ValueError); then one entry per logit, every entry positive, and the entries sum to 1 |
| ChoiceModel.SoftmaxIsRatioOfExps | recsim/choice_model.py:26-30 | subtracting the maximum only guards against overflow: wherever `exp` turns sums into products at the points involved, entry i is exp(v[i]) / sum_j exp(v[j]) |
| ChoiceModel.RatioOfShiftedExps | recsim/choice_model.py:28-30 | the shifted exponentials divided by their total equal the plain exponentials divided by theirs |
| ChoiceModel.SoftmaxShiftInvariant | recsim/choice_model.py:28-30 | softmax is unchanged when the same constant is subtracted from every logit |
| ChoiceModel.Choice | recsim/choice_model.py:87 | numpy's `choice(n, p)` on a draw in [0, 1) is one of the n indices |
| ChoiceModel.ChoiceHasPositiveMass | recsim/choice_model.py:87 | for a distribution summing to 1 the drawn index brackets the draw between two cumulative sums, so it always has positive probability |
| ChoiceModel.ChoiceOf | recsim/choice_model.py:84-90 | `choose_item` succeeds exactly when the scores plus the no-click score have a non-zero total and normalize to non-negative probabilities; the slot returned (the last one meaning None) is the one whose cumulative probability bracket holds the draw: the probabilities before it sum to at most the draw and with it to more; a returned index is below `len(scores)` and has positive probability, and None is returned only when the no-click probability is positive |
| ChoiceModel.ZeroNoClickAlwaysClicks | recsim/choice_model.py:84-105 | with no-click mass 0, `choose_item` never returns None |
| ChoiceModel.SplitLast | recsim/choice_model.py:112-113 | splitting a positive distribution into `all_scores[:-1]` and `all_scores[-1]` keeps the total 1 and every part positive |
| ChoiceModel.LogitScores | recsim/choice_model.py:104-113 | logit scoring succeeds for a finite mass, and for the default `-inf` mass whenever there is at least one document; then one positive score per document with scores plus no-click summing to 1; the no-click score is 0 exactly for the `-inf` mass; for a finite mass `scores ++ [score_no_click]` is `softmax(logits ++ [no_click_mass])` |
| ChoiceModel.ProportionalScores | recsim/choice_model.py:131-143 | a missing normalizer or mass raises TypeError; otherwise scoring succeeds exactly when every shifted term, the mass included, is non-negative, and then each score is its raw score minus `min_normalizer` and `score_no_click` is the mass minus `min_normalizer` |
| ChoiceModel.CascadeScoresAt | recsim/choice_model.py:179-186 | the cascade score at position i is a·c·s_i times the probability ∏_{j<i}(1 − a·c·s_j) that no earlier position was clicked |
| ChoiceModel.CascadeMassIsOne | recsim/choice_model.py:179-186 | the cascade's click probabilities and its no-click probability always add up to 1 (the product telescopes) |
| ChoiceModel.CascadeTermsInUnit | recsim/choice_model.py:179-186 | with an attention probability in [0, 1] and scaled scores in [0, 1], every cascade term and the no-click term lie in [0, 1] |
| ChoiceModel.CascadeZeroScaling | recsim/choice_model.py:179-186 | with `score_scaling = 0` every score is 0 and `score_no_click` is 1 |
| ChoiceModel.NoMassChoosesNothing | recsim/choice_model.py:84-90 | zero scores with no-click score 1 always draw None |
| ChoiceModel.ZeroScalingChoosesNothing | recsim/choice_model.py:84-186 | with `score_scaling = 0`, `choose_item` returns None whatever the draw |
| ChoiceModel.FirstOverflow | recsim/choice_model.py:180-183 | the first position whose scaled score exceeds 1: every earlier one fits, and that one does not |
| ChoiceModel.PositionalNormalization | recsim/choice_model.py:167-186 | when every scaled score is at most 1, the array holds the cascade click probabilities and the no-click probability is returned; otherwise AssertionError at the first overflowing position, with the positions before it overwritten by their cascade terms, the rest untouched, and the running no-click probability as far as it got |
| ChoiceModel.CascadeParameters | recsim/choice_model.py:159-165 | the cascade constructor accepts exactly an `attention_prob` in [0, 1] and a non-negative `score_scaling`; an attention read as None (a key present with value None) raises TypeError before anything else; an attention outside [0, 1] raises ValueError; past that, a missing `score_scaling` raises TypeError and a negative one ValueError |
| ChoiceModel.ExponentialCascadeScores | recsim/choice_model.py:198-201 | exponentiates the raw scores and normalizes positionally: succeeds exactly when no scaled exponential exceeds 1, and then the scores are the cascade terms and, with `score_no_click`, sum to 1 |
| ChoiceModel.ProportionalCascadeScores | recsim/choice_model.py:213-222 | succeeds exactly when the normalizer is present, every shifted score is non-negative and no scaled shifted score exceeds 1; then the scores are the cascade terms and, with `score_no_click`, sum to 1; a single negative shifted score raises AssertionError |
| ChoiceModel.MakeChoiceModel | recsim/choice_model.py:104-215 | the logit and proportional constructors always succeed; the logit mass is `-inf` exactly when `no_click_mass` is missing and is otherwise the given value (None kept as None); the proportional model keeps the given `min_normalizer` (None when missing) and `no_click_mass` (0 when missing); the cascades succeed exactly when their parameter checks pass, raise TypeError for an `attention_prob` present with value None, and otherwise keep the given attention (1.0 when the key is absent) and scaling, and the proportional cascade keeps the given `min_normalizer` (None when missing) |
| ChoiceModel.ScoreAll | recsim/choice_model.py:78-82 | succeeds exactly when every document can be scored, and then holds each document's raw score in order; otherwise the error is the one raised by the first document that fails |
| ChoiceModel.ScoresFor | recsim/choice_model.py:107-222 | every model gives one score per document, and every model except the proportional one gives scores plus no-click summing to 1 |
| ChoiceModel.ScoreSlate | recsim/choice_model.py:43-82 | scoring a slate succeeds only when every document can be scored, with one score per document |
| ChoiceModel.ChooseFrom | recsim/choice_model.py:84-90 | scoring then choosing returns None or a position of the slate |
| ChoiceModel.NormalizableChoiceModel.constructor | recsim/choice_model.py:39-40 | a new model has neither `_scores` nor `_score_no_click` |
| ChoiceModel.NormalizableChoiceModel.ScoreDocuments | recsim/choice_model.py:107-222 | succeeds exactly when the model's scoring does, and then `_scores` and `_score_no_click` are the model's scores for the slate; on failure the error is returned and `_scores` keeps its old value; `_score_no_click` also keeps its old value unless a cascade reached its positional normalization, where the assert leaves it at the no-click probability of the positions before the overflow |
| ChoiceModel.NormalizableChoiceModel.NormalizeCascade | recsim/choice_model.py:179-186 | the positional normalization as a step of the model: `_score_no_click` is written whether or not the assert fires, `_scores` only when it does not, and both then hold the cascade terms of the whole slate |
| ChoiceModel.NormalizableChoiceModel.ChooseItem | recsim/choice_model.py:84-90 | while either stored value is still None numpy cannot sum it and raises TypeError; otherwise it is `choose_item` on `_scores` and `_score_no_click`, and an index returned is below the number of stored scores |
| Environment.MapSlate | recsim/simulator/environment.py:192-193 | `[doc_ids[x] for x in slate]` succeeds exactly when every position is a valid Python index (negative ones count from the end), and then maps each position to the key there; otherwise IndexError |
| Environment.StrKeys | recsim/simulator/environment.py:193-194 | the mapped keys reach `get_documents` as strings, one per position |
| Environment.Position | recsim/simulator/environment.py:193 | a valid Python position, made non-negative, lies inside the sequence |
| Environment.AbstractEnvironment.constructor | recsim/simulator/environment.py:76-83 | the configuration is stored and the first pool holds `num_candidates` documents drawn in order from the sampler, which advances by those draws; no snapshot exists yet |
| Environment.AbstractEnvironment.DoResampleDocuments | recsim/simulator/environment.py:88-92 | a fresh candidate set holding `num_candidates` successive draws, added in draw order; the sampler advances by those draws |
| Environment.AbstractEnvironment.Snapshot | recsim/simulator/environment.py:164-217 | the snapshot becomes the pool's current observation and the pool is unchanged |
| Environment.AbstractEnvironment.Refresh | recsim/simulator/environment.py:162-217 | without `resample_documents` the pool and the sampler are unchanged; with it a fresh pool of `num_candidates` draws replaces it; either way the returned snapshot is the new pool's observation |
| Environment.AbstractEnvironment.ServedDocuments | recsim/simulator/environment.py:192-194 | before the first reset there is no snapshot (AttributeError); otherwise it succeeds exactly when every slate position is a valid index into the snapshot's keys, and then serves the pool's document at each position, in slate order; otherwise IndexError |
| Environment.ServeFromSnapshot | recsim/simulator/environment.py:192-194 | keys mapped through a snapshot of the pool always resolve: `get_documents` returns, for every slate position, the document at that position of the pool's key order |
| Environment.SnapshotKeys | recsim/simulator/environment.py:164-192 | the keys of a pool's snapshot parse back, position by position, to the pool's ids |
| Environment.SlateResolves | recsim/simulator/environment.py:192-194 | when every snapshot key parses back to its id, every key a slate maps to names the id at that slate position |
| Environment.ServeAndRespond | recsim/simulator/environment.py:192-199 | the served documents, the user's responses to them and the user's next state, each computed from the state before the step; the first of the three that raises decides the error |
| Environment.SingleUserEnvironment.Build | recsim/simulator/environment.py:59-80 | the environment holds the given pool and user model |
| Environment.SingleUserEnvironment.Reset | recsim/simulator/environment.py:152-166 | the user is resampled, the pool is resampled only when `resample_documents`, and the result is the new user's observation and the snapshot of the pool |
| Environment.SingleUserEnvironment.ResetSampler | recsim/simulator/environment.py:168-171 | both the document sampler and the user sampler are rebuilt from their seeds; the document counter is kept |
| Environment.SingleUserEnvironment.Step | recsim/simulator/environment.py:173-219 | a slate longer than `slate_size` raises AssertionError; any error leaves the user, pool, snapshot and sampler unchanged; otherwise the step succeeds exactly when serving, responding and transitioning succeed, returns the responses of the first stage, moves the user to its next state, reports the new user observation and `done` as the new state's terminal test, and resamples the pool only when `resample_documents`, moving the sampler's generator and counter past the draws, then takes a new snapshot |
| Environment.SingleUserEnvironment.StepAsWritten | recsim/simulator/environment.py:173-202 | as written, every step fails: a step that gets past the user update raises AttributeError from the document sampler's missing `update_state`, with the user state already advanced |
| Environment.UserTurn | recsim/simulator/environment.py:294-304 | one user's turn: the slate is resolved first and its error is the turn's error; a terminal user gets no responses and keeps its state; any other user responds and transitions |
| Environment.MultiUserEnvironment.Build | recsim/simulator/environment.py:59-80 | the environment holds the given pool and users, which are distinct objects with distinct samplers |
| Environment.MultiUserEnvironment.Observations | recsim/simulator/environment.py:248-250 | one observation per user, each that user's `create_observation()`, in list order |
| Environment.MultiUserEnvironment.NumUsers | recsim/simulator/environment.py:262-264 | `num_users` is the number of user models |
| Environment.MultiUserEnvironment.Reset | recsim/simulator/environment.py:238-255 | every user is resampled from its own sampler, the pool is resampled only when `resample_documents`, and the result is every user's observation and the snapshot of the pool |
| Environment.MultiUserEnvironment.ResetUsers | recsim/simulator/environment.py:246-247 | every user draws a fresh state from its own sampler, in list order |
| Environment.MultiUserEnvironment.ResetSampler | recsim/simulator/environment.py:257-260 | the document sampler and every user's sampler are rebuilt from their seeds |
| Environment.MultiUserEnvironment.Step | recsim/simulator/environment.py:266-330 | the corrected step of the third Findings row: a wrong number of slates or any oversized slate raises AssertionError before any user is touched; any error leaves the pool, snapshot and sampler unchanged, with the users before the first failing turn advanced and the rest untouched; on success each user's responses and next state are its turn's, `done` holds exactly when every user is terminal, and the pool is resampled only when `resample_documents`, then snapshot, with the sampler's generator and counter moved past the draws |
| Environment.MultiUserEnvironment.Finish | recsim/simulator/environment.py:318-330 | the tail of a successful multi-user step: one observation per user in order, `done` exactly when every user is terminal, then the pool is resampled only when `resample_documents` (the sampler's generator and counter moved past exactly those draws, and untouched otherwise) and snapshotted |
| Environment.MultiUserEnvironment.StepAsWritten | recsim/simulator/environment.py:281-316 | as written, every step fails: once every user has taken its turn, the document sampler's missing `update_state` raises AttributeError, with all the users already advanced |
| Environment.MultiUserEnvironment.TakeTurns | recsim/simulator/environment.py:292-309 | users take their turns in list order, each read from the state the step started in; the first failing turn stops the loop, with the earlier users advanced and the later ones untouched; on success every user's responses and state are its turn's |
| Environment.NewMultiUserEnvironment | recsim/simulator/environment.py:59-86 | as for the single user: the pool is filled first, so the sampler always advances by `num_candidates` draws; construction then succeeds exactly when `slate_size <= num_candidates`, holding the given users, and otherwise raises AssertionError |
| Environment.NewSingleUserEnvironment | recsim/simulator/environment.py:76-86 | the pool is filled first, so the sampler always advances by `num_candidates` draws; construction then succeeds exactly when `slate_size <= num_candidates`, and otherwise raises AssertionError |
| InterestEvolution.ResponseObservation | recsim/environments/interest_evolution.py:74-81 | a response with a cluster id gives a five-entry dict; a response without one raises TypeError from `int(None)` |
| InterestEvolution.ResponseObservationFlags | recsim/environments/interest_evolution.py:76-78 | the `click` field reads 1 exactly when the response was clicked, and the `liked` field 1 exactly when it was liked |
| InterestEvolution.ResponseObservationValues | recsim/environments/interest_evolution.py:77-79 | the `watch_time` and `quality` fields hold the response's watch time and quality |
| InterestEvolution.ResponseObservationCluster | recsim/environments/interest_evolution.py:80 | the `cluster_id` field holds the response's cluster id as an integer |
| InterestEvolution.ResponseSpace | recsim/environments/interest_evolution.py:83-111 | a dict space whose keys are click, cluster_id, liked, quality and watch_time, sorted as gym sorts a plain dict, with cluster_id a Discrete space over the NUM_FEATURES topics |
| InterestEvolution.UniformAll | recsim/environments/interest_evolution.py:197-199 | one uniform value per unit draw, each the image of its draw in [low, high) |
| InterestEvolution.IEvVideoDraw | recsim/environments/interest_evolution.py:191-205 | every drawn video has the counter as its id and advances the counter by one, carries twenty features in [min, max), a length at most `MAX_VIDEO_LENGTH`, quality 1.0 and no cluster id |
| InterestEvolution.ClusterMeans | recsim/environments/interest_evolution.py:234-241 | twenty cluster means: the fourteen "trashy" ones run from the minimum utility up to 0 and the six "nutritious" ones from 0 up to the maximum |
| InterestEvolution.OneHot | recsim/environments/interest_evolution.py:251-254 | a vector of length n that is 1.0 at the cluster and 0.0 elsewhere |
| InterestEvolution.UtilityModelVideoDraw | recsim/environments/interest_evolution.py:243-267 | every drawn video has the counter as its id and advances the counter by one, has a cluster among the twenty, one-hot features at that cluster and the fixed length |
| InterestEvolution.VideoSamplersNumberByCounter | recsim/environments/interest_evolution.py:193-266 | both video samplers number their documents 0, 1, 2, ... with their counter |
| InterestEvolution.NewVideoSampler | recsim/environments/interest_evolution.py:184-229 | a new video sampler starts its counter at 0 from the generator its seed builds, and reports the base class's `num_clusters` of 0 |
| InterestEvolution.SampledInterestsInRange | recsim/environments/interest_evolution.py:386-428 | both user samplers draw twenty interests, all in [-1, 1] |
| InterestEvolution.DotOneHot | recsim/environments/interest_evolution.py:252-362 | the dot product with a one-hot vector picks out the entry at its cluster |
| InterestEvolution.ScoreDocument | recsim/environments/interest_evolution.py:359-362 | scoring succeeds exactly for an array observation of the interests' shape, and is then their dot product; an array of another shape raises ValueError |
| InterestEvolution.UtilityVideoScore | recsim/environments/interest_evolution.py:251-362 | a utility-model video scores exactly the user's interest in its cluster |
| InterestEvolution.RespondTo | recsim/environments/interest_evolution.py:571-605 | one response per document carrying that document's quality and cluster id, none of them liked; exactly the picked position is clicked, with watch time `min(time_budget, video_length)`, and the others have watch time 0 |
| InterestEvolution.SimulateResponse | recsim/environments/interest_evolution.py:561-588 | succeeds exactly when the choice model can pick and every document is a video (AttributeError otherwise), and then gives the responses for the pick |
| InterestEvolution.FirstClick | recsim/environments/interest_evolution.py:526-527 | the first clicked response among the pairs `zip` forms: it is clicked and nothing before it is; None means nothing is clicked |
| InterestEvolution.Clip | recsim/environments/interest_evolution.py:546-547 | `np.clip` to [-1, 1] lands in [-1, 1] and keeps a value already there |
| InterestEvolution.NewInterests | recsim/environments/interest_evolution.py:533-547 | the updated interests keep their length and lie in [-1, 1] |
| InterestEvolution.MoveInterest | recsim/environments/interest_evolution.py:523-547 | one updated interest lies in [-1, 1] |
| InterestEvolution.WatchUpdate | recsim/environments/interest_evolution.py:527-556 | a watch succeeds exactly when the video scores on its own (ExpectedUtility), is a video and the interest step is defined (`alpha_x_intercept` non-zero), and the new user is then `Watched` of that expected utility, the video's features and quality and the response's watch time |
| InterestEvolution.Watched | recsim/environments/interest_evolution.py:532-554 | watching changes only the interests, which keep their length and lie in [-1, 1], and the time budget, which becomes `budget - watch_time + user_update_alpha * watch_time * (user_quality_factor * expected_utility + document_quality_factor * quality)` |
| InterestEvolution.ExpectedUtility | recsim/environments/interest_evolution.py:528-531 | the expected utility is the one score the choice model gives the video's observation on its own, and exists exactly when that scoring succeeds |
| InterestEvolution.WatchBudget | recsim/environments/interest_evolution.py:436-554 | with a user quality factor of 0 (as the utility-model sampler sets it) the expected utility drops out and watching changes the budget by `-watch_time * (1 - user_update_alpha * document_quality_factor * quality)` |
| InterestEvolution.UpdateState | recsim/environments/interest_evolution.py:505-559 | with no click among the zipped pairs the budget loses exactly `step_penalty` and nothing else changes; otherwise the user is updated by the first clicked pair only |
| InterestEvolution.OnlyFirstClickCounts | recsim/environments/interest_evolution.py:526-556 | dropping everything after the first click leaves the update unchanged |
| InterestEvolution.InterestsStayInRange | recsim/environments/interest_evolution.py:546-547 | interests in [-1, 1] stay in [-1, 1] through any successful update |
| InterestEvolution.IdleStepsBudget | recsim/environments/interest_evolution.py:501-559 | after n slates without a click the budget has lost n step penalties and nothing else changed, so `is_terminal` holds exactly when those penalties reach the starting budget |
| InterestEvolution.ClickedWatchtimeReward | recsim/environments/interest_evolution.py:608-621 | the loop's total is the watch time summed over the clicked responses |
| InterestEvolution.TotalClicksReward | recsim/environments/interest_evolution.py:624-636 | the loop's total is the number of clicked responses |
| InterestEvolution.AtMostOneClicked | recsim/environments/interest_evolution.py:608-636 | when at most position k can be clicked, the click count is 1 or 0 accordingly and the watch-time reward is the watch time there or 0 |
| InterestEvolution.SimulatedRewards | recsim/environments/interest_evolution.py:583-636 | a simulated slate earns one click and `min(time_budget, video_length)` of watch time when the model picks a video, and no click and 0 otherwise |
| InterestEvolution.NewIEvUserModel | recsim/environments/interest_evolution.py:460-499 | a missing response constructor raises TypeError, then a missing choice model constructor raises a bare Exception; otherwise the model succeeds exactly when the choice model can be built from the first sampled user's features, and starts from that user with a `UtilityModelUserSampler` on the given seed |
| InterestEvolution.CreateEnvironment | recsim/environments/interest_evolution.py:639-657 | succeeds exactly when `slate_size <= num_candidates` (AssertionError otherwise), with a proportional choice model over the default user parameters and a utility-model video sampler on the same seed |
| InterestExploration.ResponseObservation | recsim/environments/interest_exploration.py:263-266 | a dict with the keys click, quality and cluster_id, in that order |
| InterestExploration.ResponseObservationReadBack | recsim/environments/interest_exploration.py:263-266 | the fields read back as `int(clicked)`, the quality and the cluster id |
| InterestExploration.ResponseSpace | recsim/environments/interest_exploration.py:268-278 | a dict space whose keys are click, cluster_id and quality, sorted as gym sorts a plain dict, the same set of keys as a response observation, with cluster_id a Discrete space over the clusters |
| InterestExploration.ChooseIndex | recsim/environments/interest_exploration.py:224-358 | numpy's `choice(n, p)` draws one of the n indices |
| InterestExploration.Lognormal | recsim/environments/interest_exploration.py:228-362 | a lognormal draw is positive |
| InterestExploration.TopicDraw | recsim/environments/interest_exploration.py:353-365 | a drawn document has the counter as its id and advances it by one, takes its topic from the topic distribution (a topic of positive probability) and a positive lognormal quality with that topic's parameters, and uses two draws |
| InterestExploration.TopicIdsFromZero | recsim/environments/interest_exploration.py:347-357 | a fresh topic sampler numbers its documents 0, 1, ..., n-1 |
| InterestExploration.NewTopicSampler | recsim/environments/interest_exploration.py:330-351 | the topic sampler is built exactly when the mean and stddev arrays match the topic distribution's length (ValueError otherwise), and then reports as many clusters as topics and starts its counter at 0 |
| InterestExploration.Row | recsim/environments/interest_exploration.py:229-230 | the parameters of the drawn user type are that type's row |
| InterestExploration.LognormalAll | recsim/environments/interest_exploration.py:227-230 | one lognormal draw per topic, each with that topic's mean and scale |
| InterestExploration.LognormalAllPositive | recsim/environments/interest_exploration.py:227-230 | every drawn affinity is positive |
| InterestExploration.ClusterUserDraw | recsim/environments/interest_exploration.py:222-231 | a user draws its type from the type distribution (a type of positive probability), then one positive lognormal affinity per topic with that type's parameters, one draw each |
| InterestExploration.NewClusterUserSampler | recsim/environments/interest_exploration.py:203-220 | the user sampler is built exactly when both affinity matrices have one row per user type (ValueError otherwise) |
| InterestExploration.AvgAffinityGivenTopic | recsim/environments/interest_exploration.py:233-235 | `matmul(type_dist, means)` is defined exactly for a non-empty, rectangular mean matrix with one row per type, and has one entry per topic |
| InterestExploration.WeightedColumnBounds | recsim/environments/interest_exploration.py:235 | a non-negatively weighted sum of one topic's means lies between the total weight times the smallest and times the largest mean |
| InterestExploration.AverageAffinityInRange | recsim/environments/interest_exploration.py:233-235 | with a type distribution summing to 1, every average affinity lies within the range of the mean matrix |
| InterestExploration.ScoreDocument | recsim/environments/interest_exploration.py:166-168 | only a dict observation can be scored |
| InterestExploration.TopicDocumentScore | recsim/environments/interest_exploration.py:166-299 | a topic document scores `topic_affinity[cluster_id] + quality`, succeeding exactly when the cluster id is a valid Python index of the affinities (IndexError otherwise) |
| InterestExploration.RespondTo | recsim/environments/interest_exploration.py:127-151 | one response per document carrying that document's quality and cluster id; exactly the picked position is clicked |
| InterestExploration.SimulateResponse | recsim/environments/interest_exploration.py:117-141 | succeeds exactly when the choice model can pick and every document is a topic document (AttributeError otherwise), and then gives the responses for the pick |
| InterestExploration.TotalClicksReward | recsim/environments/interest_exploration.py:368-380 | the loop's total is the number of clicked responses |
| InterestExploration.AtMostOneClicked | recsim/environments/interest_exploration.py:368-380 | when at most position k can be clicked, the click count is 1 or 0 accordingly |
| InterestExploration.SimulatedClicks | recsim/environments/interest_exploration.py:137-380 | a simulated slate earns exactly one click when the model picks a document and none when it returns None |
| InterestExploration.StaticUser | recsim/environments/interest_exploration.py:107-172 | `update_state` leaves the user unchanged, `is_terminal` is always false and the user observation is empty |
| InterestExploration.NewIEUserModel | recsim/environments/interest_exploration.py:83-100 | a negative `no_click_mass` raises ValueError before anything else; then a missing response or user state constructor raises TypeError and a missing choice model constructor a bare Exception; otherwise the model starts from a user of the default cluster sampler on the given seed and builds its choice model from `{'no_click_mass': ...}` |
| InterestExploration.CreateEnvironment | recsim/environments/interest_exploration.py:383-401 | succeeds exactly when `slate_size <= num_candidates` (AssertionError otherwise), with a logit choice model of no-click mass 5, the default topic sampler on the same seed reporting 2 clusters, and a response space over 2 clusters |
| LongTermSatisfaction.ResponseObservation | recsim/environments/long_term_satisfaction.py:283-284 | a dict with the keys click and engagement, in that order |
| LongTermSatisfaction.ResponseObservationReadBack | recsim/environments/long_term_satisfaction.py:283-284 | the fields read back as `int(clicked)` and the engagement |
| LongTermSatisfaction.ResponseSpace | recsim/environments/long_term_satisfaction.py:286-298 | a dict space with the same keys as a response observation, engagement bounded by [0, `MAX_ENGAGEMENT_MAGNITUDE`] |
| LongTermSatisfaction.ClickbaitIdsFromZero | recsim/environments/long_term_satisfaction.py:330-339 | a fresh document sampler numbers its documents 0, 1, ..., n-1, each with a clickbait score in [0, 1) |
| LongTermSatisfaction.ClickbaitScores | recsim/environments/long_term_satisfaction.py:337 | every drawn document has a clickbait score in [0, 1) |
| LongTermSatisfaction.NewClickbaitSampler | recsim/environments/long_term_satisfaction.py:330-332 | a new document sampler starts its counter at 0 from the generator its seed builds |
| LongTermSatisfaction.Sigmoid | recsim/environments/long_term_satisfaction.py:119-202 | `1 / (1 + exp(-x))` lies strictly between 0 and 1 |
| LongTermSatisfaction.NewUserState | recsim/environments/long_term_satisfaction.py:182-203 | a new user state keeps every parameter and the given exposure, and its satisfaction lies strictly between 0 and 1 |
| LongTermSatisfaction.StartingExposure | recsim/environments/long_term_satisfaction.py:247-249 | the starting exposure is `(u - 0.5) / (1 - memory_discount)`, which lies in [-0.5/(1-d), 0.5/(1-d)) for a discount d below 1 |
| LongTermSatisfaction.ExposureScale | recsim/environments/long_term_satisfaction.py:248-249 | multiplying by `1 / (1 - d)` is dividing by `1 - d`, with the same bounds |
| LongTermSatisfaction.StaticUserDraw | recsim/environments/long_term_satisfaction.py:247-251 | a sampled user has the fixed parameters and budget, a starting exposure `(u - 0.5)/(1 - memory_discount)` in its bounds, a satisfaction in (0, 1), and uses one draw |
| LongTermSatisfaction.EngagementParams | recsim/environments/long_term_satisfaction.py:153-158 | the engagement location is the clickbait-weighted mix of the kale and choc means times the satisfaction; a score of 0 gives the kale parameters and 1 the choc ones, and the scale lies between the two stddevs |
| LongTermSatisfaction.Engagement | recsim/environments/long_term_satisfaction.py:159-161 | an engagement `exp(log_engagement)` is positive |
| LongTermSatisfaction.SimulateResponse | recsim/environments/long_term_satisfaction.py:126-161 | succeeds exactly for a non-empty slate starting with a clickbait document (an empty slate raises IndexError, another document AttributeError); then one response per document, only position 0 clicked, with its engagement drawn from that document's score |
| LongTermSatisfaction.FirstClick | recsim/environments/long_term_satisfaction.py:110-111 | the first clicked response among the pairs `zip` forms: it is clicked and nothing before it is; None means nothing is clicked |
| LongTermSatisfaction.Click | recsim/environments/long_term_satisfaction.py:112-123 | a click sets the exposure to `memory_discount * npe - 2 * (score - 0.5) + innovation`, the satisfaction to the sigmoid of `sensitivity * npe'`, takes 1 off the budget, and changes nothing else |
| LongTermSatisfaction.Transition | recsim/environments/long_term_satisfaction.py:101-124 | with no click nothing changes; otherwise only the first clicked pair applies, and a clicked document that is not an LTS document raises AttributeError |
| LongTermSatisfaction.TransitionBudget | recsim/environments/long_term_satisfaction.py:110-124 | an update takes exactly 1 off the budget when some response is clicked and nothing otherwise, and keeps every fixed parameter |
| LongTermSatisfaction.UpdateState | recsim/environments/long_term_satisfaction.py:101-124 | the loop with its early return leaves the user state equal to the transition's result, and unchanged when the transition raises |
| LongTermSatisfaction.FirstClickAt | recsim/environments/long_term_satisfaction.py:110-111 | a clicked position with no click before it is the first click |
| LongTermSatisfaction.ServeSpendsOneUnit | recsim/environments/long_term_satisfaction.py:110-140 | serving a slate that starts with a clickbait document always clicks position 0, so the step applies exactly that click |
| LongTermSatisfaction.Session | recsim/environments/long_term_satisfaction.py:97-140 | a session of slates runs at most one step per slate |
| LongTermSatisfaction.SessionLength | recsim/environments/long_term_satisfaction.py:97-140 | with slates that start with clickbait documents, the session lasts `min(time_budget, number of slates)` steps (none when the budget is already spent), and the budget drops by exactly that many units |
| LongTermSatisfaction.NewLTSUserModel | recsim/environments/long_term_satisfaction.py:85-251 | a missing response constructor raises TypeError; a memory discount of 1 makes the first sample divide by zero; a missing user state constructor raises TypeError; otherwise the model starts from one draw of the static sampler on the given seed |
| LongTermSatisfaction.ClickedEngagementReward | recsim/environments/long_term_satisfaction.py:342-355 | the loop's total is the engagement summed over the clicked responses |
| LongTermSatisfaction.OnlyFirstClicked | recsim/environments/long_term_satisfaction.py:342-355 | when only position 0 can be clicked, the reward is its engagement or 0 |
| LongTermSatisfaction.SimulatedReward | recsim/environments/long_term_satisfaction.py:136-355 | a simulated slate's reward is the engagement of position 0, which is positive |
| LongTermSatisfaction.CreateEnvironment | recsim/environments/long_term_satisfaction.py:358-373 | succeeds exactly when `slate_size <= num_candidates` (AssertionError otherwise), with the default user parameters and seed 0 for both samplers |
| TestEnvironment.TransitionRowsStochastic | recsim/testing/test_environment.py:156-180 | the transition tensor has 4 actions of 6 rows each, and every row is non-negative and sums to 1, so every `np.random.choice` over it is well defined |
| TestEnvironment.ImmediateRewardIsQ0 | recsim/testing/test_environment.py:119-121 | the Q-table for discount 0 is the transposed reward vector of lines 181-185: the value of action a in state s is the immediate reward |
| TestEnvironment.BestValue | recsim/testing/test_environment.py:70-71 | the value of a state is the largest Q-value of its row, and it is attained by one of the 4 actions |
| TestEnvironment.ValueFunction | recsim/testing/test_environment.py:70-71 | one value per state, each the best action's Q-value |
| TestEnvironment.KnownValueFunctions | recsim/testing/test_environment.py:57-101 | the value functions read off the three known Q-tables are exactly the ones the module documents for discounts 0, 0.5 and 0.9 |
| TestEnvironment.KnownQFunction0 | recsim/testing/test_environment.py:119-121 | with discount 0 the documented Q-table satisfies the Bellman equation exactly |
| TestEnvironment.KnownQFunction05 | recsim/testing/test_environment.py:122-127 | with discount 0.5 every entry equals reward plus 0.5 times the expected next-state value, within 0.0001 |
| TestEnvironment.KnownQFunction09 | recsim/testing/test_environment.py:128-133 | with discount 0.9 every entry equals reward plus 0.9 times the expected next-state value, within 0.0001 |
| TestEnvironment.RoundRobinDraws | recsim/testing/test_environment.py:333-337 | n draws advance the document counter by n, leave the random state alone, and the i-th document has id count+1+i and action (count+i) mod 4 |
| TestEnvironment.RoundRobinFromStart | recsim/testing/test_environment.py:326-337 | from a fresh sampler the i-th document has id i+1 and action i mod 4 |
| TestEnvironment.EveryActionAvailable | recsim/testing/test_environment.py:320-324 | once at least 4 candidates are drawn, every one of the 4 actions is in the candidate pool |
| TestEnvironment.RoundRobinOffset | recsim/testing/test_environment.py:333-335 | for every action a there is an offset below 4 at which the round robin serves a |
| TestEnvironment.NewRoundRobinSampler | recsim/testing/test_environment.py:326-331 | a fresh sampler with the given seed, the round-robin rule and a document count of 0 |
| TestEnvironment.ResponseObservation | recsim/testing/test_environment.py:288-289 | a dict whose only key is reward, holding the response's reward |
| TestEnvironment.ResponseSpace | recsim/testing/test_environment.py:291-296 | a dict space with the same keys as a response observation |
| TestEnvironment.RewardsWithinResponseSpace | recsim/testing/test_environment.py:181-185 | every reward in the reward vector lies in the response space's bounds [-10, 5] of line 295 |
| TestEnvironment.ActionReward | recsim/testing/test_environment.py:224 | numpy indexing of the reward vector: defined exactly for -4 <= action < 4, and for a non-negative action it is the reward of that action in the current state |
| TestEnvironment.SimulateResponse | recsim/testing/test_environment.py:198-224 | succeeds exactly when the slate is non-empty and its first document carries an action that indexes the reward vector; otherwise IndexError, or AttributeError for a first document without an action; every response after the first is the default one, and the first carries the action's reward |
| TestEnvironment.Transition | recsim/testing/test_environment.py:191-196 | succeeds under the same condition as the response and then yields a state in 0..5 |
| TestEnvironment.TransitionFollowsMatrix | recsim/testing/test_environment.py:193-194 | the next state has positive probability in the transition row of the first document's action and the current state |
| TestEnvironment.DefaultStartIsZero | recsim/testing/test_environment.py:258-265 | with the default starting probabilities every sampled user starts in state 0 and the random state is not advanced |
| TestEnvironment.ServeStep | recsim/testing/test_environment.py:187-224 | for a valid first action one step rewards `RewardVector[action][state]`, moves to a state the matrix allows, and the session never ends |
| TestEnvironment.NewSSUserModel | recsim/testing/test_environment.py:148-155 | ValueError exactly when the starting probabilities are not a distribution over 6 states; otherwise a user model whose first state has positive starting probability, with the given slate size, the test response space and the test dynamics |
| TestEnvironment.TotalReward | recsim/testing/test_environment.py:340-352 | the loop's result is the sum of the responses' rewards |
| TestEnvironment.OnlyFirstRewarded | recsim/testing/test_environment.py:340-352 | when only the first response can carry a reward, the total is that reward (0 for no responses) |
| TestEnvironment.SimulatedReward | recsim/testing/test_environment.py:208-214 | the total reward of a simulated slate is the reward of its first document's action |
| TestEnvironment.CreateEnvironment | recsim/testing/test_environment.py:355-371 | ValueError when there are fewer than 4 candidates or the starting probabilities are not a distribution; success exactly when neither holds and the slate fits the candidates; the environment then uses the test dynamics and the round-robin sampler with the configured sizes |
| Metrics.ClusterKey | recsim/utils.py:45 | the per-cluster counter key starts with the cluster prefix and has something after it |
| Metrics.Added | recsim/utils.py:36-48 | `metrics[key] += delta` on a dict of counters: the key gains delta, a new key goes to the end of the iteration order, every other key keeps its presence and value |
| Metrics.MetricDict.constructor | recsim/utils.py:23-33 | a metrics dict starts empty |
| Metrics.MetricDict.Increment | recsim/utils.py:36-48 | one `+=` on the dict changes its contents exactly as `Added` says |
| Metrics.ClickedIffCounted | recsim/utils.py:35-48 | the `is_clicked` flag ends up set exactly when at least one response was a click |
| Metrics.AggregateVideoClusterMetrics | recsim/utils.py:23-49 | the loop leaves the dict equal to `Aggregated` of the old dict and the responses |
| Metrics.LoopCountsClicks | recsim/utils.py:38-42 | the response loop adds the number of clicked responses to the click counter |
| Metrics.LoopSumsQuality | recsim/utils.py:38-43 | the response loop adds the summed quality of the clicked responses to the quality counter |
| Metrics.LoopCountsCluster | recsim/utils.py:38-45 | the response loop adds to each cluster's counter the number of clicked responses in that cluster |
| Metrics.LoopKeepsOtherKeys | recsim/utils.py:38-45 | the response loop leaves every key other than click, quality and the cluster keys untouched |
| Metrics.AggregationEffect | recsim/utils.py:23-49 | one aggregation adds 1 impression, the click count, the clicked quality, each cluster's clicks, and 1 no-click exactly when nothing was clicked; all other keys are unchanged |
| Metrics.AggregatedImpression | recsim/utils.py:36 | one aggregation adds exactly one impression |
| Metrics.AggregatedClicks | recsim/utils.py:38-43 | one aggregation adds the click count and the clicked quality |
| Metrics.AggregatedNoClick | recsim/utils.py:47-48 | the no-click counter grows by 1 exactly when no response was clicked |
| Metrics.AggregatedClusters | recsim/utils.py:44-45 | every cluster counter grows by the clicks in that cluster |
| Metrics.AggregatedOthers | recsim/utils.py:23-49 | keys that are not metric keys keep their presence and value |
| Metrics.ClusterFractions | recsim/utils.py:57-61 | every emitted tag carries the fraction prefix and there is at most one per key |
| Metrics.FractionsPerClusterKey | recsim/utils.py:57-61 | for a cluster key k the pair (fraction tag of k, count of k / impressions) is emitted exactly when k is among the iterated keys |
| Metrics.ClusterFractionSummaries | recsim/utils.py:57-61 | the loop over the dict emits exactly `ClusterFractions` over the dict's key order |
| Metrics.WriteVideoClusterMetrics | recsim/utils.py:52-64 | the sequence of summaries written is `Summaries` of the dict's contents |
| Metrics.WrittenSummaries | recsim/utils.py:52-64 | ZeroDivisionError exactly when there are no impressions; otherwise CTR = clicks / impressions comes first, an AverageQuality summary is present exactly when clicks > 0, and the no-click fraction comes last |
| Agent.SlateSize | recsim/agent.py:31-37 | the slate size is the length of a multi-discrete action space's `nvec`; any other space has no `nvec` and raises AttributeError |
| Agent.NewPolicyAgent | recsim/agent.py:101-111 | construction succeeds exactly for a multi-discrete action space, and then starts at episode 0 with that slate size |
| Agent.PolicyAgent.constructor | recsim/agent.py:101-111 | a new episodic agent has episode number 0 |
| Agent.PolicyAgent.Step | recsim/agent.py:39-54 | a step is answered by the agent's policy for that reward and observation |
| Agent.PolicyAgent.BeginEpisode | recsim/agent.py:113-124 | beginning an episode increments the episode number and answers a step with reward 0 |
| Agent.EpisodeBundle | recsim/agent.py:151-155 | the bundle of an episodic agent has exactly one key, episode_num |
| Agent.RestoredEpisode | recsim/agent.py:173-177 | a bundle without episode_num restores nothing |
| Agent.EpisodeRoundTrip | recsim/agent.py:136-178 | unbundling the bundle of episode n restores episode n |
| Agent.PolicyAgent.BundleAndCheckpoint | recsim/agent.py:136-155 | the agent's bundle is the episode bundle of its current episode number |
| Agent.PolicyAgent.Unbundle | recsim/agent.py:157-178 | unbundling succeeds exactly when the bundle holds episode_num, and then sets the episode number to it; on failure the episode number is unchanged |
| Agent.BaseKeyInjective | recsim/agent.py:248 | distinct base-agent indices give distinct `base_agent_bundle_{i}` keys |
| Agent.LayerBundle | recsim/agent.py:244-249 | the layer bundle holds the i-th base agent's bundle under the i-th base key, in order |
| Agent.LayerBundleKeys | recsim/agent.py:244-249 | the layer bundle's keys are the base keys 0..n-1 and they are pairwise distinct |
| Agent.BaseKeysDistinct | recsim/agent.py:248 | the base keys 0..n-1 are pairwise distinct |
| Agent.LayerBundleLookup | recsim/agent.py:244-249 | looking up the i-th base key in the layer bundle gives back the i-th base bundle |
| Agent.BundleLayer | recsim/agent.py:230-249 | the loop over the base agents builds the layer bundle of their episode bundles |
| Agent.LayerRestore | recsim/agent.py:265-273 | restoring never touches base agents already visited again, and reports success only when the incoming flag was set |
| Agent.RestoresStored | recsim/agent.py:265-273 | when every base key holds a restorable episode bundle, restoring succeeds and sets every base agent to the stored episode |
| Agent.LayerRoundTrip | recsim/agent.py:230-273 | unbundling a layer's own bundle succeeds and restores every base agent's episode number, whatever they held before |
| Agent.EpisodeSubBundle | recsim/agent.py:244-249 | the i-th base key of a layer bundle holds the i-th episode bundle |
| Agent.LayerStopsAtMissingKey | recsim/agent.py:266-269 | a missing base key makes the whole unbundle fail, and no base agent from that index on is touched |
| Agent.LayerAndsResults | recsim/agent.py:265-273 | when every key is present, the layer's result is the conjunction of the base agents' results (`success &=`) |
| Agent.UnbundleLayer | recsim/agent.py:251-273 | the loop's result and the base agents' new episode numbers are those of `LayerRestore` from their old episode numbers |
| Agent.Actions | recsim/agent.py:212-219 | the list of base actions exists exactly when every base agent answers, and holds their answers in order |
| Agent.Started | recsim/agent.py:215-218 | at most every base agent is started |
| Agent.NoneFails | recsim/agent.py:215-218 | when no base agent fails, all of them begin an episode |
| Agent.FirstFailure | recsim/agent.py:215-218 | the first failing base agent's error is the layer's error, and exactly the agents up to and including it have begun an episode |
| Agent.BeginEpisodes | recsim/agent.py:212-219 | the layer's result is `Actions` of the base policies with reward 0, and exactly the first `Started` base agents have their episode number incremented |
| AgentUtils.Select | recsim/agents/agent_utils.py:62-67 | a dict space's child is read by key and a tuple space's child by position |
| AgentUtils.SelectAll | recsim/agents/agent_utils.py:62-67 | selecting a child from a list of observations succeeds exactly when it succeeds on every one, and keeps them in order |
| AgentUtils.Walk | recsim/agents/agent_utils.py:45-74 | a Box or Discrete space hands the observations to the leaf operator; a multi-binary or multi-discrete space raises NotImplementedError |
| AgentUtils.ApplyAndFlatten | recsim/agents/agent_utils.py:42-43 | a successful walk is the leaf operator applied to every leaf of the space, leaf by leaf, concatenated in traversal order |
| AgentUtils.Prefixed | recsim/agents/agent_utils.py:57-67 | descending one step keeps one entry per leaf |
| AgentUtils.AppliedAppend | recsim/agents/agent_utils.py:58-67 | `flattened_apply +=` over two groups of leaves is the concatenation of their results |
| AgentUtils.AppliedPrefixed | recsim/agents/agent_utils.py:59-67 | applying to leaves below a child of the observations is applying to the child observations |
| AgentUtils.WalkIsApplied | recsim/agents/agent_utils.py:45-74 | the recursive walk, when it succeeds, equals the leaf operator applied to the flat list of leaves of the space |
| AgentUtils.WalkFieldsIsApplied | recsim/agents/agent_utils.py:57-62 | the loop over a dict space's fields equals the leaf operator over those fields' leaves |
| AgentUtils.WalkPartsIsApplied | recsim/agents/agent_utils.py:63-67 | the loop over a tuple space's parts equals the leaf operator over those parts' leaves |
| AgentUtils.PairCounts | recsim/agents/agent_utils.py:133 | each pair's count is read from the counts table, 0 when absent |
| AgentUtils.Examined | recsim/agents/agent_utils.py:132-139 | the loop examines pairs up to and including the first zero count, or all of them |
| AgentUtils.FirstMin | recsim/agents/agent_utils.py:134-137 | the position chosen by the strict `<` comparison lies in range |
| AgentUtils.FirstMinIsFirstMinimum | recsim/agents/agent_utils.py:134-137 | the chosen count is the minimum, and every earlier count is strictly larger, so ties go to the first |
| AgentUtils.FirstMinUnique | recsim/agents/agent_utils.py:134-137 | the first minimum is the only position with that property |
| AgentUtils.FirstMinStep | recsim/agents/agent_utils.py:134-137 | one more pair moves the choice exactly when its count is strictly smaller |
| AgentUtils.ExaminedAt | recsim/agents/agent_utils.py:138-139 | the break stops right after the first zero count |
| AgentUtils.StoppingAtZeroKeepsMinimum | recsim/agents/agent_utils.py:138-139 | with non-negative counts the early break never changes the answer: the pair found is the first minimum over all pairs |
| AgentUtils.FirstZeroIsMinimum | recsim/agents/agent_utils.py:138-139 | the first zero count is the first minimum of both the examined prefix and the whole list |
| AgentUtils.MinCountExploration | recsim/agents/agent_utils.py:117-140 | no pairs give the empty slate and no index; otherwise the slate and index of the first minimum count among the examined pairs |
| AgentUtils.PairValues | recsim/agents/agent_utils.py:98 | each pair's Q-value is read from the table, 0 when absent |
| AgentUtils.ReservoirPick | recsim/agents/agent_utils.py:103-107 | reservoir sampling picks the last position r whose draw fell below 1/(r+1) (position 0 always qualifies) |
| AgentUtils.EpsilonGreedyPick | recsim/agents/agent_utils.py:108-113 | the picked position is in range |
| AgentUtils.ScanPairs | recsim/agents/agent_utils.py:96-107 | one pass computes both the first maximum Q-value and the reservoir pick |
| AgentUtils.EpsilonGreedyExploration | recsim/agents/agent_utils.py:77-114 | no pairs give the empty slate and no index; otherwise the slate and index at the epsilon-greedy pick |
| AgentUtils.EpsilonExtremes | recsim/agents/agent_utils.py:108-113 | epsilon >= 1 always explores, epsilon < 0 always takes the first maximum, and a non-maximal pick happens only when the deciding draw is at most epsilon |
| TabularQAgent.BinsRise | recsim/agents/tabular_q_agent.py:108-109 | the `np.linspace` bins rise when the lower bound is at most the upper bound and fall otherwise |
| TabularQAgent.Digitize | recsim/agents/tabular_q_agent.py:145-146 | a digitized value is a bin index between 0 and the number of bins |
| TabularQAgent.DigitizeRising | recsim/agents/tabular_q_agent.py:145-146 | for rising bins, `np.digitize` returns the i with bins[i-1] <= x < bins[i] |
| TabularQAgent.DigitizeFalling | recsim/agents/tabular_q_agent.py:145-146 | for falling bins, `np.digitize` returns the i with bins[i-1] > x >= bins[i] |
| TabularQAgent.DigitizeMonotone | recsim/agents/tabular_q_agent.py:145-146 | a larger value never gets a smaller bin over rising bins, nor a larger one over falling bins |
| TabularQAgent.DigitizeAll | recsim/agents/tabular_q_agent.py:145-147 | a flattened array is digitized element by element |
| TabularQAgent.Flatten | recsim/agents/tabular_q_agent.py:144-145 | `np.array(x).flatten()` of a number is the one-element list and of an array its elements; anything else fails |
| TabularQAgent.LeafIndex | recsim/agents/tabular_q_agent.py:143-152 | a Box leaf gives bin indices in range, a Discrete leaf gives the observation itself when it is an integer, any other space raises NotImplementedError |
| TabularQAgent.Repeated | recsim/agents/tabular_q_agent.py:140-147 | repeating one observation's features only ever produces those features, and once is the features themselves |
| TabularQAgent.DiscretizeLeaf | recsim/agents/tabular_q_agent.py:138-153 | no observations give an empty index; otherwise the leaf is discretized from the first observation only (line 142 overwrites the loop variable), once per observation |
| TabularQAgent.BoxLeafInRange | recsim/agents/tabular_q_agent.py:140-147 | every index produced for a Box leaf is a valid bin index |
| TabularQAgent.RepeatedWithin | recsim/agents/tabular_q_agent.py:141-147 | repeating in-range features keeps them in range |
| TabularQAgent.DiscretizeGymLeaf | recsim/agents/tabular_q_agent.py:138-153 | the loop computes exactly `DiscretizeLeaf` |
| TabularQAgent.Combos | recsim/agents/tabular_q_agent.py:158 | every slate produced by `itertools.combinations` has exactly slate-size positions |
| TabularQAgent.CombosSound | recsim/agents/tabular_q_agent.py:158 | every produced slate is strictly increasing and within range |
| TabularQAgent.CombosComplete | recsim/agents/tabular_q_agent.py:158 | every strictly increasing in-range slate of the right size is produced |
| TabularQAgent.CombosDistinct | recsim/agents/tabular_q_agent.py:158 | no slate is produced twice |
| TabularQAgent.CombosSplit | recsim/agents/tabular_q_agent.py:158 | combinations in lexicographic order: those starting with the lowest index, then those without it |
| TabularQAgent.SlateFeatures | recsim/agents/tabular_q_agent.py:155-159 | the slate's features are the documents at the slate's indices, in slate order |
| TabularQAgent.PairValue | recsim/agents/tabular_q_agent.py:163-168 | the state-action pair exists exactly when the observation has a user field, and a response field unless responses are ignored |
| TabularQAgent.StateActionIndex | recsim/agents/tabular_q_agent.py:169-172 | a state-action index exists only for a well-formed state-action pair |
| TabularQAgent.StateActionIndexIsApplied | recsim/agents/tabular_q_agent.py:169-172 | the index is the leaf discretizer applied to every leaf of the state-action space, flattened |
| TabularQAgent.SlateKeys | recsim/agents/tabular_q_agent.py:161-173 | one state-action index per enumerated slate, in order |
| TabularQAgent.Keyed | recsim/agents/tabular_q_agent.py:161-173 | the enumeration succeeds exactly when every slate's index does, pairing each slate with its index; otherwise it fails with the first failing slate's error |
| TabularQAgent.Enumerate | recsim/agents/tabular_q_agent.py:155-173 | the enumerated slates are exactly the combinations over the observation's documents, in order |
| TabularQAgent.Updated | recsim/agents/tabular_q_agent.py:204-211 | the update never changes the remembered pair, and without a remembered pair it changes nothing |
| TabularQAgent.StepUpdatesPrevious | recsim/agents/tabular_q_agent.py:199-211 | with a remembered pair, its Q-value becomes `lr * (reward + gamma * max Q) + (1 - lr) * old Q` and its count grows by 1; every other entry of both tables is unchanged |
| TabularQAgent.StepWithoutPreviousKeepsTables | recsim/agents/tabular_q_agent.py:204 | without a remembered pair, a step leaves both tables unchanged |
| TabularQAgent.QUpdateBetween | recsim/agents/tabular_q_agent.py:205-208 | with a learning rate in [0, 1], the new Q-value lies between the old value and the target |
| TabularQAgent.Greedy | recsim/agents/tabular_q_agent.py:199-201 | Python's `max` with a key returns the first pair of maximal Q-value (absent entries count 0) |
| TabularQAgent.MaxQ | recsim/agents/tabular_q_agent.py:202 | the next-state value is the maximum Q-value over the enumerated pairs, and is attained |
| TabularQAgent.Exploration | recsim/agents/tabular_q_agent.py:213-217 | exploration leaves the tables unchanged and remembers the chosen pair; an unknown exploration policy raises KeyError and changes nothing |
| TabularQAgent.EvalStepIsGreedy | recsim/agents/tabular_q_agent.py:218-219 | in eval mode the slate is the first of maximal Q-value and the remembered pair is not changed |
| TabularQAgent.TrainingStepRemembersChoice | recsim/agents/tabular_q_agent.py:213-217 | in training mode the chosen slate and the remembered pair are an enumerated slate and its index; an unknown policy raises KeyError |
| TabularQAgent.StepOutcomeSlates | recsim/agents/tabular_q_agent.py:175-220 | a step over no enumerable slates fails without changing the state (Python's `max` of an empty iterator); a returned slate has slate-size increasing document indices |
| TabularQAgent.StepOnPair | recsim/agents/tabular_q_agent.py:175-220 | a returned slate is one of the enumerated slates |
| TabularQAgent.QBundle | recsim/agents/tabular_q_agent.py:252-254 | the bundle holds exactly q_value_table and sa_count |
| TabularQAgent.RestoredTables | recsim/agents/tabular_q_agent.py:272-277 | a bundle restores exactly when it holds q_value_table, and a missing sa_count restores to empty counts |
| TabularQAgent.QBundleRoundTrip | recsim/agents/tabular_q_agent.py:236-278 | unbundling the agent's bundle restores both tables |
| TabularQAgent.TabularQAgent.constructor | recsim/agents/tabular_q_agent.py:96-126 | a new agent has empty tables, no remembered pair, episode 0 and the base temperature |
| TabularQAgent.TabularQAgent.Step | recsim/agents/tabular_q_agent.py:175-220 | a step changes the agent exactly as `StepOutcome` says and keeps temperature and episode number |
| TabularQAgent.TabularQAgent.Learn | recsim/agents/tabular_q_agent.py:199-220 | the update-then-choose part of a step over the enumerated pairs is `StepOn` |
| TabularQAgent.TabularQAgent.Explore | recsim/agents/tabular_q_agent.py:213-217 | the exploration call is `Exploration` |
| TabularQAgent.TabularQAgent.BeginEpisode | recsim/agents/tabular_q_agent.py:175-220 | beginning an episode increments the episode number and takes a step with reward 0 |
| TabularQAgent.TabularQAgent.EndEpisode | recsim/agents/tabular_q_agent.py:222-234 | ending an episode multiplies the temperature by the base temperature and forgets the remembered pair, keeping the tables |
| TabularQAgent.TabularQAgent.BundleAndCheckpoint | recsim/agents/tabular_q_agent.py:236-254 | the bundle of the current tables |
| TabularQAgent.TabularQAgent.Unbundle | recsim/agents/tabular_q_agent.py:256-278 | unbundling succeeds exactly when the bundle holds q_value_table and then restores both tables; on failure nothing changes |
| TabularQAgent.StateActionSpace | recsim/agents/tabular_q_agent.py:110-120 | the joint space is a dict with action and user (and response unless ignored) in sorted key order, its action a tuple of slate-size copies of the first document space |
| TabularQAgent.JointFields | recsim/agents/tabular_q_agent.py:114-120 | `spaces.Dict` orders the fields action, response, user |
| TabularQAgent.NewTabularQAgent | recsim/agents/tabular_q_agent.py:55-136 | construction succeeds exactly when the action space has a slate size, the bin count is non-negative and the joint space can be built; the agent then starts with empty tables, episode 0 and the given temperature as both current and base |
| BanditAlgorithms.FirstMaxScore | recsim/agents/bandits/algorithms.py:85-86 | `np.argmax` over scores that may be infinite: a position of a largest score, with no earlier position as large |
| BanditAlgorithms.ExploratoryScores | recsim/agents/bandits/algorithms.py:80-81 | `np.where(pulls > 0, 0, np.Inf)`: score 0 for an arm with a positive count, infinity otherwise |
| BanditAlgorithms.UCB1Scores | recsim/agents/bandits/algorithms.py:82-83 | each arm's score is its mean reward plus `optimism * sqrt(2 log t) * sqrt(1 / pulls)` |
| BanditAlgorithms.FiniteScores | recsim/agents/bandits/algorithms.py:120-148 | a supplied score vector taken position by position |
| BanditAlgorithms.Scores | recsim/agents/bandits/algorithms.py:77-83 | UCB1 and KL-UCB give the exploratory scores while some arm has a zero count, and finite scores otherwise; Thompson sampling's scores are always finite |
| BanditAlgorithms.UnpulledArmFirst | recsim/agents/bandits/algorithms.py:79-86 | while some arm is unpulled, UCB1 and KL-UCB choose the first arm whose count is not positive, which with non-negative counts is the first unpulled arm |
| BanditAlgorithms.Recorded | recsim/agents/bandits/algorithms.py:137-140 | Thompson sampling turns a reward strictly between 0 and 1 into 0 or 1 with one draw; every other reward, and every reward of the other algorithms, is recorded unchanged without a draw |
| BanditAlgorithms.RecordedInRange | recsim/agents/bandits/algorithms.py:137-140 | the recorded reward is in [0, 1] exactly when the observed one is, so the binarization never changes whether `update` raises |
| BanditAlgorithms.MABAlgorithm.constructor | recsim/agents/bandits/algorithms.py:38-55 | a new algorithm has zero pulls and zero reward on every arm and a generator seeded with the seed |
| BanditAlgorithms.NewMABAlgorithm | recsim/agents/bandits/algorithms.py:38-55 | ValueError exactly when there are fewer than 2 arms; otherwise zeroed arrays of that length, the seeded generator, and the optimism scaling from the parameters |
| BanditAlgorithms.OptimismScaling | recsim/agents/bandits/algorithms.py:53-55 | optimism scaling defaults to 1.0 and is overridden by an optimism_scaling parameter |
| BanditAlgorithms.MABAlgorithm.SetState | recsim/agents/bandits/algorithms.py:57-61 | ValueError and no change when either array's length differs from the number of arms; otherwise both arrays are replaced |
| BanditAlgorithms.MABAlgorithm.Update | recsim/agents/bandits/algorithms.py:63-140 | a reward outside [0, 1] raises ValueError and changes nothing; otherwise the arm (a Python index, negative counting from the end) gains one pull and the recorded reward, and no other arm changes; every arm's reward stays between 0 and its pulls |
| BanditAlgorithms.MABAlgorithm.GetScore | recsim/agents/bandits/algorithms.py:77-148 | the scores of the current arrays |
| BanditAlgorithms.MABAlgorithm.GetArm | recsim/agents/bandits/algorithms.py:85-151 | the arm is the first maximum of the current scores, and an unpulled arm while any exists |
| SufficientStatistics.Wrapped | recsim/agents/layers/sufficient_statistics.py:95-98 | the augmented user field is a dict holding raw_observation (the original user field) then sufficient_statistics |
| SufficientStatistics.AugmentedSpace | recsim/agents/layers/sufficient_statistics.py:53-65 | the base agent's observation space exists exactly when the observation space has user, response and doc fields (the first missing one's error otherwise); it is a dict with doc, response and user, where user wraps the raw user space with the statistics space |
| SufficientStatistics.ReplaceUser | recsim/agents/layers/sufficient_statistics.py:94-95 | copying the observation and replacing user changes only the entries under the user key |
| SufficientStatistics.ReplaceUserKeepsKeys | recsim/agents/layers/sufficient_statistics.py:94-95 | the copy keeps the observation's keys in order |
| SufficientStatistics.ReplaceUserKeepsOthers | recsim/agents/layers/sufficient_statistics.py:94 | every key other than user reads back unchanged |
| SufficientStatistics.Augmented | recsim/agents/layers/sufficient_statistics.py:92-99 | augmenting succeeds exactly for a dict observation with a user key (AttributeError for a non-dict, KeyError without user); the result has the same keys and the wrapped user field |
| SufficientStatistics.AugmentedObservation | recsim/agents/layers/sufficient_statistics.py:92-99 | in the augmented observation every other key is unchanged, the raw user observation is kept, and the statistics are the layer's |
| SufficientStatistics.Forwarded | recsim/agents/layers/sufficient_statistics.py:105-112 | the layer's step is the base agent's step on the augmented observation, or the augmentation's error |
| ClusterClickStatistics.SingleResponseSpace | recsim/agents/layers/cluster_click_statistics.py:47 | the single response space is the first part of a Tuple response space, and exists only for a non-empty Tuple |
| Spaces.HasPart | recsim/agents/layers/cluster_click_statistics.py:48-62 | `key in space.spaces` holds exactly for a Dict space with that key, and raises for a space that has no `spaces` |
| Spaces.Truthy | recsim/agents/layers/cluster_click_statistics.py:100 | `if response['click']:` reads numbers as non-zero, None as false, tuples and dicts as non-empty, an empty array as false and a one-element array as its element; an array of several elements raises ValueError |
| ClusterClickStatistics.ClusterCount | recsim/agents/layers/cluster_click_statistics.py:51-60 | the number of clusters is `n` of a Discrete cluster_id space; a Box with more than one entry raises ValueError, and no other space yields a count |
| ClusterClickStatistics.NumClusters | recsim/agents/layers/cluster_click_statistics.py:47-64 | the constructor's checks pass exactly when the first response space is a Dict with a Discrete cluster_id and a click entry, and yield cluster_id's `n`; a nested Tuple raises ValueError |
| ClusterClickStatistics.StatisticsSpace | recsim/agents/layers/cluster_click_statistics.py:65-72 | the statistics space is a dict with click_count and impression_count, each a Box of one non-negative, unbounded entry per cluster |
| ClusterClickStatistics.Zeros | recsim/agents/layers/cluster_click_statistics.py:87-95 | fresh statistics are zero impressions and zero clicks for every cluster |
| ClusterClickStatistics.ResponseCluster | recsim/agents/layers/cluster_click_statistics.py:98 | a response's cluster, when it can be read and indexes the counts, is below the number of clusters |
| ClusterClickStatistics.RecordResponse | recsim/agents/layers/cluster_click_statistics.py:97-101 | one response adds an impression to its cluster and a click when it was clicked; an unreadable cluster changes nothing, and a missing `click` entry, or a `click` array of several elements (numpy's ambiguous truth value), raises after the impression is counted |
| ClusterClickStatistics.Recorded | recsim/agents/layers/cluster_click_statistics.py:97-101 | recording responses keeps one count per cluster |
| ClusterClickStatistics.RecordedNext | recsim/agents/layers/cluster_click_statistics.py:97-101 | the loop stops at the first error and otherwise records the next response |
| ClusterClickStatistics.RecordedStops | recsim/agents/layers/cluster_click_statistics.py:97-101 | after an error the remaining responses change nothing |
| ClusterClickStatistics.RecordedCounts | recsim/agents/layers/cluster_click_statistics.py:97-101 | without errors each cluster's impressions grow by the number of its responses and its clicks by the number of its clicked responses |
| ClusterClickStatistics.Updated | recsim/agents/layers/cluster_click_statistics.py:85-101 | the update always leaves statistics with one count per cluster, creating zero counts first when there were none |
| ClusterClickStatistics.NoResponseKeepsCounts | recsim/agents/layers/cluster_click_statistics.py:96 | an observation whose response is None leaves the counts as they were (zeros when there were none) |
| ClusterClickStatistics.Observed | recsim/agents/layers/cluster_click_statistics.py:77-83 | the statistics observation reads back the impression counts and the click counts as arrays |
| ClusterClickStatistics.StepOutcome | recsim/agents/layers/sufficient_statistics.py:92-112 | a step updates the counts, then raises the update's error or forwards the augmented observation to the base agent |
| ClusterClickStatistics.ClusterClickStatsLayer.constructor | recsim/agents/layers/sufficient_statistics.py:49-71 | a new layer has no statistics yet |
| ClusterClickStatistics.ClusterClickStatsLayer.Update | recsim/agents/layers/cluster_click_statistics.py:85-101 | the layer's statistics become those of `Updated` |
| ClusterClickStatistics.ClusterClickStatsLayer.RecordAll | recsim/agents/layers/cluster_click_statistics.py:97-101 | the response loop changes the statistics as `Recorded` says |
| ClusterClickStatistics.ClusterClickStatsLayer.Record | recsim/agents/layers/cluster_click_statistics.py:98-101 | one response changes the statistics as `RecordResponse` says |
| ClusterClickStatistics.ClusterClickStatsLayer.CreateObservation | recsim/agents/layers/cluster_click_statistics.py:77-83 | the statistics observation of the current counts |
| ClusterClickStatistics.ClusterClickStatsLayer.Step | recsim/agents/layers/sufficient_statistics.py:105-112 | a step's result and new statistics are `StepOutcome` |
| ClusterClickStatistics.ClusterClickStatsLayer.BeginEpisode | recsim/agent.py:212-219 | with no observation the base agent begins on None and the statistics are untouched; otherwise the counts are updated and the base agent begins on the augmented observation, counting the episode only when it is reached |
| ClusterClickStatistics.ClusterClickStatsLayer.EndEpisode | recsim/agents/layers/sufficient_statistics.py:114-120 | ending an episode updates the counts and then forgets them, unless the update or augmentation raised first |
| ClusterClickStatistics.ClusterClickStatsLayer.BundleAndCheckpoint | recsim/agent.py:230-249 | the bundle holds the one base agent's episode bundle under base key 0 |
| ClusterClickStatistics.ClusterClickStatsLayer.Unbundle | recsim/agent.py:251-273 | unbundling restores the one base agent as the layer unbundle does |
| ClusterClickStatistics.NewClusterClickStatsLayer | recsim/agents/layers/cluster_click_statistics.py:36-75 | construction succeeds exactly when the cluster checks pass, the action space is multi-discrete and the augmented space can be built; the layer then has the counted clusters, no statistics, and a fresh base agent at episode 0 on the augmented space |
| FixedLengthHistory.Features | recsim/agents/layers/fixed_length_history.py:65-71 | at most three remembered features |
| FixedLengthHistory.FeaturesSelected | recsim/agents/layers/fixed_length_history.py:65-71 | user, response and doc are remembered exactly when their flags are set, nothing else is, and they come in that order |
| FixedLengthHistory.FeaturesDistinct | recsim/agents/layers/fixed_length_history.py:65-71 | no feature is remembered twice |
| FixedLengthHistory.SpaceItem | recsim/agents/layers/fixed_length_history.py:73 | indexing a Dict space reads its field; any other space raises TypeError |
| FixedLengthHistory.FeatureSpaces | recsim/agents/layers/fixed_length_history.py:72-74 | the spaces to remember exist exactly when every feature is a field of the observation space, one per feature in order |
| FixedLengthHistory.StatisticsSpace | recsim/agents/layers/fixed_length_history.py:72-77 | a Tuple of `history_length` copies (none for a non-positive length) of the Dict of the remembered spaces, whose keys `spaces.Dict` sorts |
| FixedLengthHistory.Remembered | recsim/agents/layers/fixed_length_history.py:92-94 | the remembered entry exists exactly when the observation has every feature, and holds each feature's value in order |
| FixedLengthHistory.RememberedFeatures | recsim/agents/layers/fixed_length_history.py:92-94 | the remembered entry's keys are the features, and each reads back the observation's value |
| FixedLengthHistory.DropLast | recsim/agents/layers/fixed_length_history.py:97 | `buffer[:-1]` keeps every entry but the last (and an empty buffer stays empty) |
| FixedLengthHistory.Shifted | recsim/agents/layers/fixed_length_history.py:95-97 | the new entry goes first and every old entry moves back one place, so a non-empty buffer keeps its length |
| FixedLengthHistory.Empty | recsim/agents/layers/fixed_length_history.py:87-90 | a fresh buffer holds `history_length` Nones (none for a non-positive length) |
| FixedLengthHistory.HistoryHoldsLatest | recsim/agents/layers/fixed_length_history.py:26-36 | after any number of updates the buffer has `history_length` entries, the i-th the i-th most recent observation, or None before enough observations |
| FixedLengthHistory.ShortHistory | recsim/agents/layers/fixed_length_history.py:87-97 | with a non-positive length the buffer holds only the latest observation |
| FixedLengthHistory.Updated | recsim/agents/layers/fixed_length_history.py:85-97 | an update fails exactly when a feature is missing from the observation; otherwise the remembered entry is shifted into the buffer (a fresh one when there was none), whose length is kept |
| FixedLengthHistory.UpdatesBuildHistory | recsim/agents/layers/fixed_length_history.py:85-97 | replaying the updates over a sequence of observations gives the history of their remembered entries |
| FixedLengthHistory.RememberedAll | recsim/agents/layers/fixed_length_history.py:92-94 | one remembered entry per observation |
| FixedLengthHistory.Observed | recsim/agents/layers/fixed_length_history.py:82-83 | the statistics observation is the buffer as a tuple, whose first item is the latest entry |
| FixedLengthHistory.StepOutcome | recsim/agents/layers/sufficient_statistics.py:92-112 | a step updates the buffer, then raises the update's error or forwards the augmented observation to the base agent |
| FixedLengthHistory.FixedLengthHistoryLayer.constructor | recsim/agents/layers/sufficient_statistics.py:49-71 | a new layer has no buffer yet |
| FixedLengthHistory.FixedLengthHistoryLayer.Update | recsim/agents/layers/fixed_length_history.py:85-97 | the layer's buffer becomes that of `Updated` |
| FixedLengthHistory.FixedLengthHistoryLayer.CreateObservation | recsim/agents/layers/fixed_length_history.py:82-83 | the statistics observation of the current buffer |
| FixedLengthHistory.FixedLengthHistoryLayer.Step | recsim/agents/layers/sufficient_statistics.py:105-112 | a step's result and new buffer are `StepOutcome` |
| FixedLengthHistory.FixedLengthHistoryLayer.BeginEpisode | recsim/agent.py:212-219 | with no observation the base agent begins on None and the buffer is untouched; otherwise the buffer is updated and the base agent begins on the augmented observation, counting the episode only when it is reached |
| FixedLengthHistory.FixedLengthHistoryLayer.EndEpisode | recsim/agents/layers/sufficient_statistics.py:114-120 | ending an episode updates the buffer and then forgets it, unless the update or augmentation raised first |
| FixedLengthHistory.FixedLengthHistoryLayer.BundleAndCheckpoint | recsim/agent.py:230-249 | the bundle holds the one base agent's episode bundle under base key 0 |
| FixedLengthHistory.FixedLengthHistoryLayer.Unbundle | recsim/agent.py:251-273 | unbundling restores the one base agent as the layer unbundle does |
| FixedLengthHistory.NewFixedLengthHistoryLayer | recsim/agents/layers/fixed_length_history.py:38-80 | construction succeeds exactly when the statistics space can be built, the action space is multi-discrete and the augmented space can be built; the layer then remembers the selected features, has no buffer, and a fresh base agent at episode 0 |
| AbstractClickBandit.ConcatAppend | recsim/agents/layers/abstract_click_bandit.py:93-103 | concatenating two groups of actions is concatenating their documents |
| AbstractClickBandit.Take | recsim/agents/layers/abstract_click_bandit.py:98-100 | at most k documents, the first ones |
| AbstractClickBandit.TakeOfLonger | recsim/agents/layers/abstract_click_bandit.py:101-102 | once the first actions fill the slate, later actions add nothing |
| AbstractClickBandit.TakeAfterShort | recsim/agents/layers/abstract_click_bandit.py:98-100 | after a short prefix, the next action contributes `min(len(action), slate_size - len(slate))` documents |
| AbstractClickBandit.TakeNext | recsim/agents/layers/abstract_click_bandit.py:95-100 | one loop iteration appends the first `recs_to_use` documents of the next action |
| AbstractClickBandit.TakeFull | recsim/agents/layers/abstract_click_bandit.py:101-102 | breaking out of the loop once the slate is full leaves the same slate as going on |
| AbstractClickBandit.AbstractClickBanditLayer.PostprocessActions | recsim/agents/layers/abstract_click_bandit.py:93-103 | the loop's slate is the first `slate_size` documents of the actions, in order; empty actions are skipped |
| AbstractClickBandit.Negated | recsim/agents/layers/abstract_click_bandit.py:134 | `-pulls` element by element |
| AbstractClickBandit.ScoreValues | recsim/agents/layers/abstract_click_bandit.py:131 | finite scores as numbers, position by position |
| AbstractClickBandit.ArmOrder | recsim/agents/layers/abstract_click_bandit.py:130-135 | the arm order holds one arm index per arm, each in range |
| AbstractClickBandit.ArmOrderRanks | recsim/agents/layers/abstract_click_bandit.py:130-139 | the order is a permutation of the arms; popped from the end, it visits the least-pulled arms first while some arm is unpulled and the best-scored arms first otherwise |
| AbstractClickBandit.CollectedFills | recsim/agents/layers/abstract_click_bandit.py:136-142 | the queried actions hold at least a slate's worth of documents, the last one was needed to reach it, and no more arms are queried than there are in the order |
| AbstractClickBandit.CollectedNext | recsim/agents/layers/abstract_click_bandit.py:138-142 | while the slate is short, the next arm's action is appended and the loop goes on |
| AbstractClickBandit.CollectedStops | recsim/agents/layers/abstract_click_bandit.py:138-142 | the loop stops with the actions so far once the slate is full; popping an exhausted order or an arm without a base agent raises IndexError; a failing base agent's error is the layer's |
| AbstractClickBandit.AbstractClickBanditLayer.Collect | recsim/agents/layers/abstract_click_bandit.py:136-142 | the while-loop computes `Collected` from zero documents |
| AbstractClickBandit.Statistic | recsim/agents/layers/abstract_click_bandit.py:123-125 | a count vector is read from `observation['user']['sufficient_statistics']` |
| AbstractClickBandit.Params | recsim/agents/layers/abstract_click_bandit.py:70 | the parameters give the algorithm the layer's ci_scaling as optimism scaling |
| AbstractClickBandit.Sampled | recsim/agents/layers/abstract_click_bandit.py:128 | one supplied score per arm |
| AbstractClickBandit.StepOutcome | recsim/agents/layers/abstract_click_bandit.py:105-143 | a successful step read both count vectors, of the same length and at least 2 arms, and returns a full slate |
| AbstractClickBandit.AbstractClickBanditLayer.Step | recsim/agents/layers/abstract_click_bandit.py:105-143 | a step's result is `StepOutcome` of the base agents' rules |
| AbstractClickBandit.AbstractClickBanditLayer.constructor | recsim/agents/layers/abstract_click_bandit.py:66-91 | the layer keeps its configuration and base agents |
| AbstractClickBandit.AbstractClickBanditLayer.BeginEpisode | recsim/agent.py:212-219 | every base agent begins on the observation until one fails, and the packed slate of their actions is returned |
| AbstractClickBandit.AbstractClickBanditLayer.EndEpisode | recsim/agent.py:221-228 | base agents return nothing at the end of an episode, so the packed slate is empty |
| AbstractClickBandit.AbstractClickBanditLayer.BundleAndCheckpoint | recsim/agent.py:230-249 | the layer bundle of the base agents' episode bundles |
| AbstractClickBandit.AbstractClickBanditLayer.Unbundle | recsim/agent.py:251-273 | unbundling restores the base agents as the layer unbundle does |
| AbstractClickBandit.CountShapes | recsim/agents/layers/abstract_click_bandit.py:74-88 | as written, the constructor only reads the user space's sufficient statistics and the first dimension of the two count spaces |
| AbstractClickBandit.NewPolicyAgents | recsim/agents/layers/abstract_click_bandit.py:89-91 | one fresh base agent per arm, in order, each at episode 0 |
| AbstractClickBandit.NewAbstractClickBanditLayerAsWritten | recsim/agents/layers/abstract_click_bandit.py:44-91 | as written, construction succeeds for any multi-discrete action space whose count spaces can be read, whatever their length |
| AbstractClickBandit.MismatchedCountsAccepted | recsim/agents/layers/abstract_click_bandit.py:84-88 | two arms over counts for three clusters pass the code as written, and the checks the messages describe refuse them |
| AbstractClickBandit.CheckedCountShapes | recsim/agents/layers/abstract_click_bandit.py:74-88 | with the errors raised, the checks pass only when both count spaces have one entry per arm, and a mismatch is a ValueError |
| AbstractClickBandit.NewAbstractClickBanditLayer | recsim/agents/layers/abstract_click_bandit.py:44-91 | with the errors raised, construction succeeds exactly for a multi-discrete action space and count spaces with one entry per arm; one fresh base agent per arm at episode 0 |
| ClusterBanditAgent.InCluster | recsim/agents/cluster_bandit_agent.py:87 | reading a document's cluster_id raises when it is missing, and a cluster_id equal to the agent's cluster matches |
| ClusterBanditAgent.Reading | recsim/agents/cluster_bandit_agent.py:87-89 | a document is read successfully exactly when its cluster comparison succeeds and, if it matches, its quality can be read; it contributes its quality exactly when it matches |
| ClusterBanditAgent.Readings | recsim/agents/cluster_bandit_agent.py:86-89 | one reading per document of the observation, in order |
| ClusterBanditAgent.Matching | recsim/agents/cluster_bandit_agent.py:84-89 | the loop collects as many qualities as positions |
| ClusterBanditAgent.MatchingFinds | recsim/agents/cluster_bandit_agent.py:84-89 | the collected positions are increasing and are exactly the documents of the cluster, each with its quality |
| ClusterBanditAgent.MatchingStops | recsim/agents/cluster_bandit_agent.py:86-89 | an error stops the loop and is the step's error |
| ClusterBanditAgent.MatchingNext | recsim/agents/cluster_bandit_agent.py:86-89 | one loop iteration: an error stops, a non-matching document is skipped, a matching one is appended with its quality |
| ClusterBanditAgent.Picked | recsim/agents/cluster_bandit_agent.py:93 | `np.array(my_docs)[sorted_indices]` picks the positions in the given order |
| ClusterBanditAgent.Chosen | recsim/agents/cluster_bandit_agent.py:90-93 | every recommended document belongs to the cluster |
| ClusterBanditAgent.PickedRanks | recsim/agents/cluster_bandit_agent.py:92-93 | ordering the positions by reversed argsort of their qualities is a permutation of them in non-increasing quality |
| ClusterBanditAgent.ChosenRanks | recsim/agents/cluster_bandit_agent.py:84-93 | the slate holds every document of the cluster exactly once, best quality first |
| ClusterBanditAgent.ClusterSlate | recsim/agents/cluster_bandit_agent.py:82-93 | a step's slate is chosen from the observation's documents as `Chosen` says |
| ClusterBanditAgent.ClusterSlateRanks | recsim/agents/cluster_bandit_agent.py:82-93 | a document is in the slate exactly when it belongs to the cluster, no document twice, in non-increasing quality |
| ClusterBanditAgent.GreedyClusterStep | recsim/agents/cluster_bandit_agent.py:82-93 | the step's loops compute `ClusterSlate` |
| ClusterBanditAgent.ClusterRules | recsim/agents/cluster_bandit_agent.py:60-63 | one greedy arm per topic, the i-th for cluster i |
| ClusterBanditAgent.NumTopics | recsim/agents/cluster_bandit_agent.py:58-59 | the number of topics is `n` of the first document space's cluster_id |
| ClusterBanditAgent.NewClusterBanditAgent | recsim/agents/cluster_bandit_agent.py:40-71 | construction fails with the topic lookup's error; otherwise it succeeds exactly when the action space is multi-discrete and the click-bandit constructor as written can read both count spaces, whatever their length; the arms are the greedy cluster agents, one per topic, with the slate size, algorithm, scaling and seed given |
| ClusterBanditAgent.StatisticsLayerPassesChecks | recsim/agents/layers/cluster_click_statistics.py:65-75 | stacked on a click-statistics layer over as many clusters as topics, the bandit's count checks pass |
| ClusterBanditAgent.CountsReachBandit | recsim/agents/layers/cluster_click_statistics.py:77-83 | stacked on the click-statistics layer, the bandit reads back exactly the impression and click counts that layer keeps |
| GreedyPCTRAgent.FindBestDocuments | recsim/agents/greedy_pctr_agent.py:87-103 | `np.argpartition` succeeds exactly for a non-empty score list no shorter than the slate (ValueError otherwise), and yields `slate_size` indices, or every index for a slate size of 0 (`[-0:]`) |
| GreedyPCTRAgent.BestDocumentsAreTop | recsim/agents/greedy_pctr_agent.py:97-103 | the indices are distinct and in range, in non-increasing score order, and no index left out scores higher than one taken |
| GreedyPCTRAgent.ZeroSlateRanksAll | recsim/agents/greedy_pctr_agent.py:99 | with a slate size of 0 every document is returned, sorted by score |
| GreedyPCTRAgent.DocValues | recsim/agents/greedy_pctr_agent.py:75-78 | `doc_obs.values()` of a dict observation lists its values in order; anything else raises AttributeError |
| GreedyPCTRAgent.PCTRSlate | recsim/agents/greedy_pctr_agent.py:57-85 | a step scores the observation's documents with the choice model under the belief state and returns the best documents of those scores |
| GreedyPCTRAgent.PCTRSlateIsTop | recsim/agents/greedy_pctr_agent.py:57-103 | the slate holds distinct document indices in non-increasing choice-model score, and no document left out scores higher than one recommended |
| GreedyPCTRAgent.GreedyPCTRAgent.constructor | recsim/agents/greedy_pctr_agent.py:39-55 | a new agent keeps its slate size, belief state and choice model, at episode 0 |
| GreedyPCTRAgent.GreedyPCTRAgent.Step | recsim/agents/greedy_pctr_agent.py:57-85 | the step's result is `PCTRSlate`; a failure before scoring (no `doc` field, not a dict, a document the belief cannot score) leaves the choice model's stored scores alone; once the raw scores exist, the stored scores are what `score_documents` leaves: the new scores and no-click score when the model scores the slate, even when the slate size then makes `argpartition` fail, and otherwise the old scores with the cascade's partial `_score_no_click` write |
| GreedyPCTRAgent.GreedyPCTRAgent.BeginEpisode | recsim/agent.py:113-124 | beginning an episode increments the episode number and takes a step: the slate is the step's, and the choice model is left holding the scores the step stores, on the Ok and the Err paths alike |
| GreedyPCTRAgent.NewGreedyPCTRAgent | recsim/agents/greedy_pctr_agent.py:39-55 | construction succeeds exactly for a multi-discrete action space, with its slate size |
| RandomAgent.DocCount | recsim/agents/random_agent.py:55 | `len(doc_obs)` is the number of entries of a dict or tuple observation; a number or None has no length (TypeError) |
| RandomAgent.Swapped | recsim/agents/random_agent.py:56 | swapping two positions keeps the length |
| RandomAgent.SwappedPermutes | recsim/agents/random_agent.py:56 | a swap is a permutation |
| RandomAgent.ShuffleDown | recsim/agents/random_agent.py:56 | the Fisher-Yates steps from position i down keep the length |
| RandomAgent.ShuffleDownPermutes | recsim/agents/random_agent.py:56 | the Fisher-Yates steps are a permutation |
| RandomAgent.Shuffled | recsim/agents/random_agent.py:56 | `rng.shuffle` keeps the length |
| RandomAgent.ShuffledPermutes | recsim/agents/random_agent.py:56 | `rng.shuffle` is a permutation of its input |
| RandomAgent.RandomSlateValid | recsim/agents/random_agent.py:55-57 | the slate has `min(slate_size, n)` distinct positions below n, and the generator advances by one draw per shuffle step |
| RandomAgent.FullSlateIsPermutation | recsim/agents/random_agent.py:55-57 | when the slate is at least as large as the candidate set, every document appears in it |
| RandomAgent.StepOutcome | recsim/agents/random_agent.py:36-59 | a step succeeds exactly when the observation has a doc field with a length, returns `min(slate_size, n)` distinct document positions, and draws nothing when it raises |
| RandomAgent.RandomAgent.constructor | recsim/agents/random_agent.py:32-34 | a new agent has the given slate size, a generator seeded with the seed, and episode 0 |
| RandomAgent.RandomAgent.Shuffle | recsim/agents/random_agent.py:56 | shuffling the array in place leaves `Shuffled` of its old contents, and advances the generator by one draw per step |
| RandomAgent.RandomAgent.Step | recsim/agents/random_agent.py:36-59 | the step's slate and new generator are `StepOutcome` |
| RandomAgent.RandomAgent.BeginEpisode | recsim/agent.py:113-124 | beginning an episode increments the episode number and takes a step |
| RandomAgent.RandomAgent.BundleAndCheckpoint | recsim/agent.py:136-155 | the bundle holds the episode number |
| RandomAgent.RandomAgent.Unbundle | recsim/agent.py:157-178 | unbundling restores the episode number exactly when the bundle holds one, and keeps the generator |
| RandomAgent.NewRandomAgent | recsim/agents/random_agent.py:32-34 | construction succeeds exactly for a multi-discrete action space, with its slate size and a seeded generator |
| Ranking.Insert | recsim/agents/greedy_pctr_agent.py:102 | inserting a position into a ranking keeps every position in range and adds one |
| Ranking.InsertPermutes | recsim/agents/greedy_pctr_agent.py:102 | insertion adds exactly the inserted position to the ranking's multiset |
| Ranking.InsertKeepsOrder | recsim/agents/greedy_pctr_agent.py:102 | insertion into a ranking of non-increasing scores keeps it non-increasing |
| Ranking.RankPrefixPermutes | recsim/agents/greedy_pctr_agent.py:102 | ranking the first n positions yields a permutation of those positions |
| Ranking.RankPrefixSorted | recsim/agents/greedy_pctr_agent.py:102 | ranking the first n positions orders them by non-increasing score |
| Ranking.PermutationOfPositions | recsim/agents/greedy_pctr_agent.py:102 | a permutation of `0..n-1` is distinct, in range and holds every position |
| Ranking.RankIsSortedPermutation | recsim/agents/greedy_pctr_agent.py:99-102 | the descending sort of all positions holds each position exactly once, by non-increasing score |
| Ranking.TopPositions | recsim/agents/greedy_pctr_agent.py:99-102 | the first k ranked positions are distinct, sorted by score, and no position left out scores higher than one taken (`argpartition` then `argsort(-scores)`) |
| Ranking.ReversedArgsort | recsim/agents/cluster_bandit_agent.py:92 | `np.argsort(x)[::-1]` has one in-range position per score |
| Ranking.ReversedArgsortIsSortedPermutation | recsim/agents/cluster_bandit_agent.py:92 | `np.argsort(x)[::-1]` is a permutation of the positions in non-increasing score order; abstract_click_bandit.py:135-138 pops arms in the same order |
| Ranking.FirstMax | recsim/agents/tabular_q_agent.py:199-201 | `max(..., key=...)` returns the first position of a maximal value: no value exceeds it and every earlier one is strictly smaller |
| Ranking.FirstMaxStep | recsim/agents/agent_utils.py:90-102 | the running maximum with strict `>` advances to a new position only when its value beats the current maximum |

## Left out

- Input and output: TensorFlow sessions and summaries, checkpoint files, flags and gin configuration (`runner_lib.py`, `main.py`). The metrics writer is modelled as the list of tag/value pairs it would emit.
- The gym adapter `recsim_gym.py`. Its reward and metrics callbacks are called directly here.
- The neural agents (`full_slate_q_agent.py`, `slate_decomp_q_agent.py`, the Dopamine DQN agent), the GLM bandits and the temporal-aggregation layer. They are TensorFlow graphs or floating-point linear algebra.
- Floating-point arithmetic: values are exact reals. Rounding, overflow of `exp` and NaN are not modelled.
- ChoiceModel.LogitScores: with the default `-inf` no-click mass and an empty slate, numpy's softmax of `[-inf]` yields NaN without raising, so `score_documents` stores `[]` and NaN and `choose_item` raises ValueError later; the model refuses the scoring itself with ValueError and leaves the stored scores unchanged.
- TabularQAgent.LeafIndex: a Discrete observation that is not an integer is a TypeError in the model, where the source appends it to the key as it is.
- `exp`, `log`, `sqrt`, the sigmoid and the normal, lognormal and beta draws are supplied functions, not computed. numpy's checks of their parameters (a negative scale, say) are not modelled.
- KL-UCB's binary search is not computed: once every arm is pulled, its scores are a supplied vector. Thompson sampling's beta draws are not computed either: its scores are always a supplied vector.
- BanditAlgorithms.MABAlgorithm.GetScore: Thompson sampling's `get_score` draws its betas from `self._rng` (recsim/agents/bandits/algorithms.py:148), which advances the generator; the model leaves `rng` where it was, so only the draws of `update` move it.
- numpy's bit-level random streams: the values a generator yields are a supplied function of seed and position.
- numpy's `choice` checks that its probability vector sums to 1 within a tolerance. Where the model makes that check, the test environment's starting probabilities (`TestEnvironment.NewSSUserModel`), it asks for an exact sum of 1, since values are exact reals; the same check at draw time in the other samplers and the choice models is not modelled. `choice` on an empty distribution, which numpy refuses, is read as index 0 by the samplers of the interest-exploration environment.
- Parameter lists whose length a constructor checked are read as 0.0 (or an empty row) past their end. numpy's broadcasting of rows of unequal length is not modelled.
- Gym `observation_space` and `response_space` objects are `Space` values. Building them is modelled only where an agent reads them: its slate size, cluster count and augmented spaces.
- Python's `int(s)` is modelled on plain decimal strings; signs, whitespace and underscores in other forms are not.
- gym's `Dict` space sorts the keys of a plain dict, and the model writes every such space with sorted keys: the response spaces of the environments, the click-statistics space, the history statistics space, the augmented observation space and the tabular state-action space. Response observations are plain dicts and keep their literal key order.
- `NormalizableChoiceModel` keeps `_scores` and `_score_no_click` between `score_documents` and `choose_item`, as the agent that owns one uses it. The environments' user models score and choose in one step through `User.SlateChoice`, so the scores their choice-model object is left holding after `simulate_response` are not tracked there. The draw of `choose_item` is a supplied uniform value.
- A `defaultdict` read of a missing metrics key does not insert the key; only `+=` does.
- Environment.MultiUserEnvironment.Step: the users and samplers are distinct objects. One user model placed twice in the list is not modelled.
- InterestEvolution: the user observation returns the interests vector itself; the aliasing that lets a caller mutate the state through it is not modelled.
- InterestEvolution: the choice model is built once in the constructor from the first user's `choice_features`. The model keeps that, as the source does, and does not rebuild it on `reset`.
- InterestExploration: the `avg_user_state` property is not modelled. `AvgAffinityGivenTopic` refuses an empty or ragged table with ValueError; numpy's `matmul` of an empty table is not modelled.
- LongTermSatisfaction: the net-positive-exposure update follows the code's sign at long_term_satisfaction.py:115, not the docstring's at line 57. Its Gaussian noise and sigmoid are supplied functions. `score_document` (constant 1) is not modelled.
- TestEnvironment: `sample_user` draws from numpy's global generator. That draw is one supplied value, so every reset repeats the same start (state 0 with the default starting probabilities).
- TestEnvironment: the sampler's `_last_action_id` is not a separate field. It always equals `_doc_count - 1`, so the action is the doc counter modulo 4.
- Agent: a bundle's `episode_num` that is not an integer is refused. A base agent's sub-bundle that is not a dict is read as empty.
- Agent: the hierarchical layers' base agents are `PolicyAgent`s whose step is a pure rule of the reward and observation. Arbitrary base agents with their own state are not modelled.
- Ranking: among equal scores, `argsort` and `argpartition` are taken to order positions by index. numpy's unstable tie order is not modelled.
- RandomAgent: numpy's `random_interval` may take several raw draws per shuffle step (rejection sampling). The model takes exactly one per step.
- AbstractClickBandit: count vectors that are not numeric arrays are refused with TypeError. numpy's other conversions are not modelled.
- ClusterClickStatistics: a Box `cluster_id` space yields no cluster count. Its `high` array, which the source then uses as the count, is not a number.
- ClusterBanditAgent.InCluster: `doc['cluster_id'] == cluster_id` is modelled for numbers and one-element arrays. numpy's broadcasting comparison of longer arrays is a ValueError here.
- TabularQAgent.RestoredTables: a `q_value_table` or `sa_count` entry that is not a table of the right kind is read as an empty table; the source stores whatever value the bundle holds.
- BanditAlgorithms.NewMABAlgorithm: only `optimism_scaling` is read from `params`. The constructor's `setattr` loop sets every other key as an attribute too, which could overwrite `pulls`, `reward` or `_rng`; that is not modelled.
- Environment.NewMultiUserEnvironment: the user models are distinct objects with distinct samplers, as for the multi-user step.
- TabularQAgent: the constructor's docstring also allows an exploration function, but the code looks the policy up by name among its two policies. The model follows the code, where any other policy is a KeyError.

## Findings

| source | as written | input that shows it | evidently intended | confidence | as-written member | corrected member |
|---|---|---|---|---|---|---|
| recsim/simulator/environment.py:202 | `step` calls `self._document_sampler.update_state(...)`, but `AbstractDocumentSampler` (recsim/document.py:88-112) defines no such method | any slate of valid positions with any document sampler of the repository | a document-sampler hook that does nothing by default, called after the user update | not executed | Environment.SingleUserEnvironment.StepAsWritten | Environment.SingleUserEnvironment.Step |
| recsim/agents/layers/abstract_click_bandit.py:75-88 | the checks on the sufficient-statistics spaces build `ValueError(...)` objects without `raise` | 2 arm constructors with click and impression counts over 3 clusters | raise ValueError unless both count spaces have one entry per arm | not executed | AbstractClickBandit.MismatchedCountsAccepted | AbstractClickBandit.NewAbstractClickBanditLayer |
| recsim/simulator/environment.py:315-316 | the multi-user `step` calls `self._document_sampler.update_state(...)`, which `AbstractDocumentSampler` (recsim/document.py:88-112) does not define | one user with any slate of valid positions, with any document sampler of the repository | a document-sampler hook that does nothing by default, called after every user's update | not executed | Environment.MultiUserEnvironment.StepAsWritten | Environment.MultiUserEnvironment.Step |

The cluster-bandit agent (`ClusterBanditAgent.NewClusterBanditAgent`) is built on the as-written click-bandit constructor of the second row, because its contract states what the repository's agent accepts; the environments' steps use the corrected halves of the first and third rows, since the as-written steps never return a result.
