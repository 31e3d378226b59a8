// The greedy pCTR agent of recsim/agents/greedy_pctr_agent.py: an episodic
// agent that knows the user's choice model, scores the candidate documents
// under its belief about the user state, and recommends the documents with
// the highest scores, best first.
module GreedyPCTRAgent {
  import opened Basics
  import opened Spaces
  import opened Agent
  import opened Ranking
  import opened ChoiceModel

  /** The effective slate size: `slate_size`, or every document when it is 0. */
  function Selected(n: nat, slateSize: nat): nat
  {
    if slateSize == 0 then n else slateSize
  }

  /**
   * `findBestDocuments(scores)`: `argpartition(scores, -k)[-k:]` then those
   * positions by non-increasing score. numpy refuses a partition index
   * outside the array, so an empty slate of scores or `k > len(scores)` is a
   * ValueError; `k == 0` selects (and sorts) every position.
   */
  function FindBestDocuments(scores: seq<real>, slateSize: nat): (r: Result<seq<nat>>)
    ensures r.Ok? <==> 0 < |scores| && slateSize <= |scores|
    ensures r.Err? ==> r.error == ValueError
    ensures r.Ok? ==> |r.value| == Selected(|scores|, slateSize)
  {
    if |scores| == 0 || slateSize > |scores| then Err(ValueError)
    else Ok(Rank(scores)[..Selected(|scores|, slateSize)])
  }

  /**
   * The best documents are `slate_size` distinct positions of the scores,
   * best first, and no position left out scores higher than one selected.
   */
  lemma {:induction false} BestDocumentsAreTop(scores: seq<real>, slateSize: nat)
    requires FindBestDocuments(scores, slateSize).Ok?
    ensures var best := FindBestDocuments(scores, slateSize).value;
      && |best| == Selected(|scores|, slateSize)
      && Distinct(best) && InRange(best, |scores|)
      && NonIncreasing(scores, best)
      && forall p, q: nat :: p in best && q < |scores| && q !in best ==> scores[p] >= scores[q]
  {
    TopPositions(scores, Selected(|scores|, slateSize));
  }

  /** With `slate_size` 0 the best documents are all the documents, best first. */
  lemma {:induction false} ZeroSlateRanksAll(scores: seq<real>)
    requires |scores| > 0
    ensures var best := FindBestDocuments(scores, 0);
      && best.Ok? && |best.value| == |scores|
      && (forall p: nat :: p < |scores| ==> p in best.value)
      && NonIncreasing(scores, best.value)
  {
    RankIsSortedPermutation(scores);
    assert Rank(scores)[..|scores|] == Rank(scores);
  }

  /** `doc_obs.values()`: the document observations of a dict, in order. */
  function DocValues(docs: Value): (r: Result<seq<Value>>)
    ensures r.Ok? <==> docs.VDict?
    ensures r.Ok? ==> |r.value| == |docs.entries|
    ensures r.Ok? ==> forall i :: 0 <= i < |docs.entries| ==> r.value[i] == docs.entries[i].1
    ensures r.Err? ==> r.error == AttributeError
  {
    if docs.VDict? then Ok(seq(|docs.entries|, i requires 0 <= i < |docs.entries| => docs.entries[i].1))
    else Err(AttributeError)
  }

  /**
   * The slate `step` returns: the document observations are scored by the
   * choice model under the belief state, and the best of them are selected.
   * The first failure (no `doc` field, not a dict, a document the belief
   * state cannot score, a choice model that raises, a slate size numpy
   * refuses) is the step's error.
   */
  function PCTRSlate<S>(exp: real -> real, kind: ChoiceKind, score: (S, Value) -> Result<real>, belief: S,
                        observation: Value, slateSize: nat): (r: Result<seq<nat>>)
    requires ExpPositive(exp)
    ensures r.Ok? ==> Field(observation, "doc").Ok? && DocValues(Field(observation, "doc").value).Ok?
    ensures r.Ok? ==>
      var docs := DocValues(Field(observation, "doc").value).value;
      && ScoreSlate(exp, kind, score, belief, docs).Ok?
      && r == FindBestDocuments(ScoreSlate(exp, kind, score, belief, docs).value.scores, slateSize)
  {
    var doc :- Field(observation, "doc");
    var docs :- DocValues(doc);
    var scored :- ScoreSlate(exp, kind, score, belief, docs);
    FindBestDocuments(scored.scores, slateSize)
  }

  /**
   * A successful step recommends `slate_size` distinct documents of the
   * observation (every document when `slate_size` is 0), best first under
   * the choice model, and no document left out scores higher.
   */
  lemma {:induction false} PCTRSlateIsTop<S>(exp: real -> real, kind: ChoiceKind, score: (S, Value) -> Result<real>, belief: S,
                          observation: Value, slateSize: nat)
    requires ExpPositive(exp)
    requires PCTRSlate(exp, kind, score, belief, observation, slateSize).Ok?
    ensures var docs := DocValues(Field(observation, "doc").value).value;
      var scores := ScoreSlate(exp, kind, score, belief, docs).value.scores;
      var slate := PCTRSlate(exp, kind, score, belief, observation, slateSize).value;
      && |scores| == |docs| == |Field(observation, "doc").value.entries|
      && |slate| == Selected(|docs|, slateSize)
      && Distinct(slate) && InRange(slate, |docs|)
      && NonIncreasing(scores, slate)
      && forall p, q: nat :: p in slate && q < |docs| && q !in slate ==> scores[p] >= scores[q]
  {
    var docs := DocValues(Field(observation, "doc").value).value;
    var scores := ScoreSlate(exp, kind, score, belief, docs).value.scores;
    BestDocumentsAreTop(scores, slateSize);
  }

  /** The default choice model: multinomial logit with a no-click mass of 5. */
  const DefaultChoiceKind: ChoiceKind := MultinomialLogit(Finite(5.0))

  /**
   * A `GreedyPCTRAgent`: its slate size, its belief about the user state
   * (with that state's document scoring) and the choice model it assumes.
   */
  class GreedyPCTRAgent<S> {
    const slateSize: nat
    const belief: S
    const score: (S, Value) -> Result<real>
    const model: NormalizableChoiceModel
    var episodeNum: int

    constructor (slateSize: nat, belief: S, score: (S, Value) -> Result<real>, model: NormalizableChoiceModel)
      ensures this.slateSize == slateSize && this.belief == belief && this.score == score && this.model == model
      ensures episodeNum == 0
    {
      this.slateSize := slateSize;
      this.belief := belief;
      this.score := score;
      this.model := model;
      episodeNum := 0;
    }

    /**
     * `step`: the reward is not used; the choice model scores the documents
     * under the belief state and keeps the scores, and the best documents
     * by those scores form the slate.
     */
    method Step(reward: real, observation: Value, exp: real -> real) returns (r: Result<Slate>)
      requires ExpPositive(exp)
      modifies model
      ensures r == PCTRSlate(exp, model.kind, score, belief, observation, slateSize)
      ensures r.Ok? ==>
        var docs := DocValues(Field(observation, "doc").value).value;
        && model.scores == Some(ScoreSlate(exp, model.kind, score, belief, docs).value.scores)
        && model.scoreNoClick == Some(ScoreSlate(exp, model.kind, score, belief, docs).value.noClick)
      ensures Field(observation, "doc").Err? || DocValues(Field(observation, "doc").value).Err?
              || ScoreAll(score, belief, DocValues(Field(observation, "doc").value).value).Err? ==>
        model.scores == old(model.scores) && model.scoreNoClick == old(model.scoreNoClick)
      ensures Field(observation, "doc").Ok? && DocValues(Field(observation, "doc").value).Ok?
              && ScoreAll(score, belief, DocValues(Field(observation, "doc").value).value).Ok? ==>
        var raw := ScoreAll(score, belief, DocValues(Field(observation, "doc").value).value).value;
        var s := ScoresFor(exp, model.kind, raw);
        var t := CascadeInput(exp, model.kind, raw);
        && (s.Ok? ==> model.scores == Some(s.value.scores) && model.scoreNoClick == Some(s.value.noClick))
        && (s.Err? ==> model.scores == old(model.scores))
        && (s.Err? && t.None? ==> model.scoreNoClick == old(model.scoreNoClick))
        && (s.Err? && t.Some? ==>
              model.scoreNoClick == Some(CascadeNoClick(model.kind.attention, model.kind.scaling,
                                                        t.value[..FirstOverflow(model.kind.scaling, t.value)])))
    {
      var doc :- Field(observation, "doc");
      var docs :- DocValues(doc);
      var raw :- ScoreAll(score, belief, docs);
      var scoring := model.ScoreDocuments(exp, raw);
      if scoring.Err? {
        return Err(scoring.error);
      }
      var best :- FindBestDocuments(model.scores.value, slateSize);
      r := Ok(best);
    }

    /** `begin_episode`: counts the episode, then steps with reward 0. */
    method BeginEpisode(observation: Value, exp: real -> real) returns (r: Result<Slate>)
      requires ExpPositive(exp)
      modifies this, model
      ensures episodeNum == old(episodeNum) + 1
      ensures r == PCTRSlate(exp, model.kind, score, belief, observation, slateSize)
      ensures r.Ok? ==>
        var docs := DocValues(Field(observation, "doc").value).value;
        && model.scores == Some(ScoreSlate(exp, model.kind, score, belief, docs).value.scores)
        && model.scoreNoClick == Some(ScoreSlate(exp, model.kind, score, belief, docs).value.noClick)
      ensures Field(observation, "doc").Err? || DocValues(Field(observation, "doc").value).Err?
              || ScoreAll(score, belief, DocValues(Field(observation, "doc").value).value).Err? ==>
        model.scores == old(model.scores) && model.scoreNoClick == old(model.scoreNoClick)
      ensures Field(observation, "doc").Ok? && DocValues(Field(observation, "doc").value).Ok?
              && ScoreAll(score, belief, DocValues(Field(observation, "doc").value).value).Ok? ==>
        var raw := ScoreAll(score, belief, DocValues(Field(observation, "doc").value).value).value;
        var s := ScoresFor(exp, model.kind, raw);
        var t := CascadeInput(exp, model.kind, raw);
        && (s.Ok? ==> model.scores == Some(s.value.scores) && model.scoreNoClick == Some(s.value.noClick))
        && (s.Err? ==> model.scores == old(model.scores))
        && (s.Err? && t.None? ==> model.scoreNoClick == old(model.scoreNoClick))
        && (s.Err? && t.Some? ==>
              model.scoreNoClick == Some(CascadeNoClick(model.kind.attention, model.kind.scaling,
                                                        t.value[..FirstOverflow(model.kind.scaling, t.value)])))
    {
      episodeNum := episodeNum + 1;
      r := Step(0.0, observation, exp);
    }
  }

  /**
   * `GreedyPCTRAgent(action_space, belief_state, choice_model)`: the slate
   * size comes from the action space.
   */
  method NewGreedyPCTRAgent<S>(actionSpace: Space, belief: S, score: (S, Value) -> Result<real>,
                               model: NormalizableChoiceModel)
    returns (r: Result<GreedyPCTRAgent<S>>)
    ensures r.Ok? <==> actionSpace.MultiDiscrete?
    ensures r.Ok? ==> fresh(r.value) && r.value.slateSize == |actionSpace.nvec|
    ensures r.Ok? ==> r.value.belief == belief && r.value.score == score && r.value.model == model
    ensures r.Ok? ==> r.value.episodeNum == 0
  {
    var slateSize :- SlateSize(actionSpace);
    var agent := new GreedyPCTRAgent(slateSize, belief, score, model);
    return Ok(agent);
  }
}
