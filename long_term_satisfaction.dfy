// The long-term-satisfaction environment: documents carry a clickbait score;
// the user always clicks the first document of the slate, engages with it for
// a lognormal time whose mean grows with the user's satisfaction, and each
// click moves the hidden net positive exposure and spends one unit of the
// session's time budget. The reward is the clicked engagement.
module LongTermSatisfaction {
  import opened Basics
  import opened Spaces
  import opened Document
  import opened ChoiceModel
  import opened User
  import opened Environment

  // ---------------------------------------------------------------------
  // Responses

  /** `LTSResponse`: whether the document was clicked and the engagement with it. */
  datatype LTSResponse = LTSResponse(clicked: bool, engagement: real)

  /** A response as `LTSResponse()` builds it. */
  const DefaultResponse: LTSResponse := LTSResponse(false, 0.0)

  /** `MAX_ENGAGEMENT_MAGNITUDE`, the upper bound of the engagement feature's space. */
  const MaxEngagementMagnitude: real := 100.0

  /** `create_observation()`: the click as 0/1 and the engagement. */
  function ResponseObservation(r: LTSResponse): (obs: Value)
    ensures obs.VDict? && Keys(obs.entries) == ["click", "engagement"]
  {
    VDict([("click", VInt(Indicator(r.clicked))), ("engagement", VReal(r.engagement))])
  }

  /** Each field of the observation reads back the response's attribute. */
  lemma {:induction false} ResponseObservationReadBack(r: LTSResponse)
    ensures Field(ResponseObservation(r), "click") == Ok(VInt(Indicator(r.clicked)))
    ensures Field(ResponseObservation(r), "engagement") == Ok(VReal(r.engagement))
  {
    LookupFirstOccurrence(ResponseObservation(r).entries, 1);
  }

  /** `LTSResponse.response_space()`: the observation's keys, engagement bounded by [0, 100]. */
  function ResponseSpace(): (sp: Space)
    ensures sp.DictSpace? && Keys(sp.fields) == Keys(ResponseObservation(DefaultResponse).entries)
    ensures sp.fields[1].1 == Box([], [Bounded(0.0)], [Bounded(MaxEngagementMagnitude)])
  {
    DictSpace([("click", Discrete(2)), ("engagement", Box([], [Bounded(0.0)], [Bounded(MaxEngagementMagnitude)]))])
  }

  // ---------------------------------------------------------------------
  // Documents

  /**
   * `LTSDocumentSampler.sample_document()`: the counter is the id, one
   * uniform draw is the clickbait score, and the counter advances.
   */
  function ClickbaitRule(): SampleRule
  {
    (rng: RandomState, count: int, stream: Stream) =>
      var score := Draw(rng, stream);
      (Document(count, ClickbaitDoc(score.0)), score.1, count + 1)
  }

  /** A clickbait document whose score is a uniform draw in [0, 1). */
  predicate ScoredClickbait(d: Document)
  {
    d.body.ClickbaitDoc? && 0.0 <= d.body.clickbaitScore < 1.0
  }

  /**
   * From a fresh sampler the documents are numbered 0, 1, 2, ..., one
   * generator draw each, and every clickbait score lies in [0, 1).
   */
  lemma {:induction false} ClickbaitIdsFromZero(seed: int, stream: Stream, n: nat)
    ensures var drawn := SampleMany(ClickbaitRule(), Seeded(seed), 0, stream, n);
      && drawn.2 == n && (forall i :: 0 <= i < n ==> drawn.0[i].docId == i)
      && (forall i :: 0 <= i < n ==> ScoredClickbait(drawn.0[i]))
  {
    assert NumbersByCounter(ClickbaitRule());
    CounterIds(ClickbaitRule(), Seeded(seed), 0, stream, n);
    ClickbaitScores(Seeded(seed), 0, stream, n);
  }

  /** Every document the clickbait rule draws is a clickbait document with a score in [0, 1). */
  lemma {:induction false} ClickbaitScores(rng: RandomState, count: int, stream: Stream, n: nat)
    ensures forall i :: 0 <= i < n ==> ScoredClickbait(SampleMany(ClickbaitRule(), rng, count, stream, n).0[i])
  {
    if n > 0 {
      ClickbaitScores(rng, count, stream, n - 1);
      var first := SampleMany(ClickbaitRule(), rng, count, stream, n - 1);
      var score := Draw(first.1, stream);
      assert ClickbaitRule()(first.1, first.2, stream).0 == Document(first.2, ClickbaitDoc(score.0));
    }
  }

  /** `LTSDocumentSampler()`: the base sampler on the given seed with the counter at 0. */
  method NewClickbaitSampler(seed: int) returns (s: DocumentSampler)
    ensures fresh(s) && s.seed == seed && s.rule == ClickbaitRule() && s.rng == Seeded(seed)
    ensures s.docCount == 0 && s.numClusters == 0
  {
    s := new DocumentSampler(seed, ClickbaitRule(), 0);
  }

  // ---------------------------------------------------------------------
  // Users

  /**
   * `LTSUserState`: the transition parameters (memory discount, sensitivity,
   * innovation scale), the engagement parameters for clickbait ("choc") and
   * non-clickbait ("kale") content, and the state variables: net positive
   * exposure, satisfaction and the remaining time budget.
   */
  datatype LTSUserState = LTSUserState(
    memoryDiscount: real, sensitivity: real, innovationStddev: real,
    chocMean: real, chocStddev: real, kaleMean: real, kaleStddev: real,
    netPositiveExposure: real, satisfaction: real, timeBudget: int)

  /** The parameters `LTSStaticUserSampler` hands every user it builds. */
  datatype LTSParams = LTSParams(
    memoryDiscount: real, sensitivity: real, innovationStddev: real,
    chocMean: real, chocStddev: real, kaleMean: real, kaleStddev: real, timeBudget: int)

  /** The sampler's default parameters. */
  const DefaultParams: LTSParams := LTSParams(0.7, 0.01, 0.05, 5.0, 1.0, 4.0, 1.0, 60)

  /** The logistic function `1 / (1 + exp(-x))`, strictly between 0 and 1 for a positive `exp`. */
  function Sigmoid(exp: real -> real, x: real): (s: real)
    requires ExpPositive(exp)
    ensures 0.0 < s < 1.0
  {
    var e: real := exp(-x);
    SigmoidBounds(e);
    1.0 / (1.0 + e)
  }

  /** One over one plus a positive number lies strictly between 0 and 1. */
  lemma {:induction false} SigmoidBounds(e: real)
    requires e > 0.0
    ensures 0.0 < 1.0 / (1.0 + e) < 1.0
  {
    var s := 1.0 / (1.0 + e);
    assert s * (1.0 + e) == 1.0;
  }

  /** `LTSUserState(...)`: the satisfaction is the sigmoid of sensitivity times exposure. */
  function NewUserState(exp: real -> real, p: LTSParams, npe: real): (s: LTSUserState)
    requires ExpPositive(exp)
    ensures s.memoryDiscount == p.memoryDiscount && s.sensitivity == p.sensitivity
    ensures s.innovationStddev == p.innovationStddev && s.chocMean == p.chocMean && s.chocStddev == p.chocStddev
    ensures s.kaleMean == p.kaleMean && s.kaleStddev == p.kaleStddev && s.timeBudget == p.timeBudget
    ensures s.netPositiveExposure == npe && 0.0 < s.satisfaction < 1.0
  {
    LTSUserState(p.memoryDiscount, p.sensitivity, p.innovationStddev, p.chocMean, p.chocStddev,
                 p.kaleMean, p.kaleStddev, npe, Sigmoid(exp, Mul(p.sensitivity, npe)), p.timeBudget)
  }

  /**
   * The starting net positive exposure `(u - 0.5) * (1 / (1 - memory_discount))`
   * for a uniform draw `u`. Python raises ZeroDivisionError for a memory
   * discount of 1, which the user model's constructor reports before any
   * user is built; 0 stands in for that case.
   */
  function StartingExposure(u: Unit, memoryDiscount: real): (npe: real)
    ensures memoryDiscount != 1.0 ==> npe == (u - 0.5) / (1.0 - memoryDiscount)
    ensures memoryDiscount < 1.0 ==> -0.5 / (1.0 - memoryDiscount) <= npe < 0.5 / (1.0 - memoryDiscount)
  {
    if memoryDiscount == 1.0 then 0.0
    else
      var scale := 1.0 / (1.0 - memoryDiscount);
      ExposureScale(u, memoryDiscount, scale);
      Mul(u - 0.5, scale)
  }

  /** Scaling a centred uniform draw by `1 / (1 - d)`: a division, and within half the scale. */
  lemma {:induction false} ExposureScale(u: Unit, d: real, scale: real)
    requires d != 1.0 && scale == 1.0 / (1.0 - d)
    ensures Mul(u - 0.5, scale) == (u - 0.5) / (1.0 - d)
    ensures d < 1.0 ==> -0.5 / (1.0 - d) <= Mul(u - 0.5, scale) < 0.5 / (1.0 - d)
  {
    var w := 1.0 - d;
    DivideByMultiplying(u - 0.5, w);
    if d < 1.0 {
      DivideByMultiplying(-0.5, w);
      DivideByMultiplying(0.5, w);
      assert scale > 0.0;
      assert Mul(-0.5, scale) <= Mul(u - 0.5, scale) < Mul(0.5, scale) by {
        assert (u - 0.5 + 0.5) * scale >= 0.0;
        assert (0.5 - (u - 0.5)) * scale > 0.0;
      }
    }
  }

  /** Dividing by `w` is multiplying by its reciprocal. */
  lemma {:induction false} DivideByMultiplying(x: real, w: real)
    requires w != 0.0
    ensures Mul(x, 1.0 / w) == x / w
  {
  }

  /**
   * `LTSStaticUserSampler.sample_user()`: one uniform draw sets the starting
   * exposure; every other attribute is the sampler's parameter.
   */
  function StaticUserRule(exp: real -> real, p: LTSParams): UserRule<LTSUserState>
    requires ExpPositive(exp)
  {
    (rng: RandomState, stream: Stream) =>
      var u := Draw(rng, stream);
      (NewUserState(exp, p, StartingExposure(u.0, p.memoryDiscount)), u.1)
  }

  /**
   * What one draw of the user sampler yields: a user with the sampler's
   * parameters, its full time budget, a starting exposure within
   * `0.5 / (1 - memory_discount)` of zero and a satisfaction in (0, 1).
   */
  lemma {:induction false} StaticUserDraw(exp: real -> real, p: LTSParams, rng: RandomState, stream: Stream)
    requires ExpPositive(exp) && p.memoryDiscount < 1.0
    ensures var next := StaticUserRule(exp, p)(rng, stream);
      var u := stream(rng.seed, rng.position);
      && next.0 == NewUserState(exp, p, (u - 0.5) / (1.0 - p.memoryDiscount))
      && next.1 == RandomState(rng.seed, rng.position + 1)
      && next.0.timeBudget == p.timeBudget && 0.0 < next.0.satisfaction < 1.0
      && -0.5 / (1.0 - p.memoryDiscount) <= next.0.netPositiveExposure < 0.5 / (1.0 - p.memoryDiscount)
  {
    var u := Draw(rng, stream);
    var npe := StartingExposure(u.0, p.memoryDiscount);
    assert StaticUserRule(exp, p)(rng, stream) == (NewUserState(exp, p, npe), u.1);
  }

  /**
   * The mean and scale of the log-engagement with a document of clickbait
   * score `score`: the interpolation from kale to choc, the mean scaled by
   * the satisfaction.
   */
  function EngagementParams(s: LTSUserState, score: real): (ms: (real, real))
    ensures ms.0 == Mul(Lerp(s.kaleMean, s.chocMean, score), s.satisfaction)
    ensures score == 0.0 ==> ms == (Mul(s.kaleMean, s.satisfaction), s.kaleStddev)
    ensures score == 1.0 ==> ms == (Mul(s.chocMean, s.satisfaction), s.chocStddev)
    ensures s.kaleStddev <= s.chocStddev && 0.0 <= score <= 1.0 ==> s.kaleStddev <= ms.1 <= s.chocStddev
  {
    (Mul(Lerp(s.kaleMean, s.chocMean, score), s.satisfaction), Lerp(s.kaleStddev, s.chocStddev, score))
  }

  /** `generate_response`'s engagement: the exponential of a normal draw, hence positive. */
  function Engagement(exp: real -> real, normal: Distribution, s: LTSUserState, score: real, u: Unit): (x: real)
    ensures ExpPositive(exp) ==> x > 0.0
  {
    var ms := EngagementParams(s, score);
    var y: real := normal(ms.0, ms.1, u);
    exp(y)
  }

  /**
   * `simulate_response(documents)`: one default response per document, and
   * the first document is clicked with an engagement drawn for its score.
   * An empty slate raises IndexError, a first document without a clickbait
   * score AttributeError.
   */
  function SimulateResponse(exp: real -> real, normal: Distribution, s: LTSUserState, documents: seq<Document>,
                            noise: Noise)
    : (r: Result<seq<LTSResponse>>)
    ensures r.Ok? <==> documents != [] && documents[0].body.ClickbaitDoc?
    ensures r.Err? ==> r.error == (if documents == [] then IndexError else AttributeError)
    ensures r.Ok? ==> |r.value| == |documents| && forall i :: 0 < i < |documents| ==> r.value[i] == DefaultResponse
    ensures r.Ok? ==> r.value[0] == LTSResponse(true, Engagement(exp, normal, s, documents[0].body.clickbaitScore,
                                                                  NoiseAt(noise, 0)))
  {
    if documents == [] then Err(IndexError)
    else if !documents[0].body.ClickbaitDoc? then Err(AttributeError)
    else
      var clicked := LTSResponse(true, Engagement(exp, normal, s, documents[0].body.clickbaitScore, NoiseAt(noise, 0)));
      Ok([clicked] + Repeat(DefaultResponse, |documents| - 1))
  }

  /**
   * The position of the first clicked response among the pairs that
   * `zip(slate_documents, responses)` forms, if any.
   */
  function FirstClick(documents: seq<Document>, responses: seq<LTSResponse>): (k: Option<nat>)
    ensures k.Some? ==> k.value < |documents| && k.value < |responses| && responses[k.value].clicked
    ensures k.Some? ==> forall j :: 0 <= j < k.value ==> !responses[j].clicked
    ensures k.None? ==> forall j :: 0 <= j < |documents| && j < |responses| ==> !responses[j].clicked
  {
    if documents == [] || responses == [] then None
    else if responses[0].clicked then Some(0)
    else
      match FirstClick(documents[1..], responses[1..])
      case None => None
      case Some(k) => Some(k + 1)
  }

  /**
   * The effect of one click on a document of clickbait score `score`:
   * exposure decays by the memory discount, moves against the score's
   * distance from 0.5 and by a normal innovation; satisfaction follows
   * through the sigmoid; one unit of time budget is spent.
   */
  function Click(exp: real -> real, normal: Distribution, s: LTSUserState, score: real, u: Unit): (t: LTSUserState)
    requires ExpPositive(exp)
    ensures t.netPositiveExposure
      == Mul(s.memoryDiscount, s.netPositiveExposure) - 2.0 * (score - 0.5) + normal(0.0, s.innovationStddev, u)
    ensures t.satisfaction == Sigmoid(exp, Mul(s.sensitivity, t.netPositiveExposure))
    ensures t.timeBudget == s.timeBudget - 1
    ensures t == s.(netPositiveExposure := t.netPositiveExposure, satisfaction := t.satisfaction,
                    timeBudget := t.timeBudget)
  {
    var innovation := normal(0.0, s.innovationStddev, u);
    var npe := Mul(s.memoryDiscount, s.netPositiveExposure) - 2.0 * (score - 0.5) + innovation;
    s.(netPositiveExposure := npe, satisfaction := Sigmoid(exp, Mul(s.sensitivity, npe)), timeBudget := s.timeBudget - 1)
  }

  /**
   * `update_state(slate_documents, responses)` as a function of the state:
   * only the first clicked response counts, and its document must carry a
   * clickbait score (AttributeError otherwise); with no click nothing changes.
   */
  function Transition(exp: real -> real, normal: Distribution, s: LTSUserState, documents: seq<Document>,
                      responses: seq<LTSResponse>, noise: Noise)
    : (r: Result<LTSUserState>)
    requires ExpPositive(exp)
    ensures FirstClick(documents, responses).None? ==> r == Ok(s)
    ensures r.Err? <==> (FirstClick(documents, responses).Some?
                         && !documents[FirstClick(documents, responses).value].body.ClickbaitDoc?)
    ensures r.Err? ==> r.error == AttributeError
    ensures r.Ok? && FirstClick(documents, responses).Some? ==>
      r.value == Click(exp, normal, s, documents[FirstClick(documents, responses).value].body.clickbaitScore,
                       NoiseAt(noise, 0))
  {
    match FirstClick(documents, responses)
    case None => Ok(s)
    case Some(k) =>
      if documents[k].body.ClickbaitDoc? then Ok(Click(exp, normal, s, documents[k].body.clickbaitScore, NoiseAt(noise, 0)))
      else Err(AttributeError)
  }

  /**
   * A state update spends exactly one unit of time budget when some zipped
   * response is clicked and none otherwise, and never touches the user's
   * parameters.
   */
  lemma {:induction false} TransitionBudget(exp: real -> real, normal: Distribution, s: LTSUserState, documents: seq<Document>,
                         responses: seq<LTSResponse>, noise: Noise)
    requires ExpPositive(exp)
    requires Transition(exp, normal, s, documents, responses, noise).Ok?
    ensures var t := Transition(exp, normal, s, documents, responses, noise).value;
      && t.timeBudget == s.timeBudget - (if FirstClick(documents, responses).Some? then 1 else 0)
      && (exists j :: 0 <= j < |documents| && j < |responses| && responses[j].clicked) == FirstClick(documents, responses).Some?
      && t.memoryDiscount == s.memoryDiscount && t.sensitivity == s.sensitivity
      && t.innovationStddev == s.innovationStddev && t.chocMean == s.chocMean && t.chocStddev == s.chocStddev
      && t.kaleMean == s.kaleMean && t.kaleStddev == s.kaleStddev
  {
    var k := FirstClick(documents, responses);
    if k.Some? {
      assert responses[k.value].clicked;
    }
  }

  /**
   * `LTSUserModel.update_state` as the source runs it: walk the zipped pairs,
   * and at the first click draw the innovation, rewrite the exposure, the
   * satisfaction and the time budget of the user's state, and stop.
   */
  method UpdateState(user: UserModel<LTSUserState, LTSResponse>, exp: real -> real, normal: Distribution,
                     documents: seq<Document>, responses: seq<LTSResponse>, noise: Noise)
    returns (r: Result<()>)
    requires ExpPositive(exp)
    modifies user
    ensures var next := Transition(exp, normal, old(user.state), documents, responses, noise);
      && (r.Ok? <==> next.Ok?)
      && (next.Ok? ==> user.state == next.value)
      && (next.Err? ==> user.state == old(user.state) && r.error == next.error)
  {
    var i := 0;
    while i < |documents| && i < |responses|
      invariant 0 <= i <= |documents| && i <= |responses|
      invariant forall j :: 0 <= j < i ==> !responses[j].clicked
      invariant user.state == old(user.state)
    {
      if responses[i].clicked {
        assert FirstClick(documents, responses) == Some(i) by {
          FirstClickAt(documents, responses, i);
        }
        var innovation := normal(0.0, user.state.innovationStddev, NoiseAt(noise, 0));
        if !documents[i].body.ClickbaitDoc? {
          return Err(AttributeError);
        }
        var npe := Mul(user.state.memoryDiscount, user.state.netPositiveExposure)
          - 2.0 * (documents[i].body.clickbaitScore - 0.5) + innovation;
        user.state := user.state.(netPositiveExposure := npe);
        user.state := user.state.(satisfaction := Sigmoid(exp, Mul(user.state.sensitivity, npe)));
        user.state := user.state.(timeBudget := user.state.timeBudget - 1);
        return Ok(());
      }
      i := i + 1;
    }
    assert FirstClick(documents, responses).None?;
    return Ok(());
  }

  /** The first click is at `i` when `i` is clicked, in range, and nothing before it is. */
  lemma {:induction false} FirstClickAt(documents: seq<Document>, responses: seq<LTSResponse>, i: nat)
    requires i < |documents| && i < |responses| && responses[i].clicked
    requires forall j :: 0 <= j < i ==> !responses[j].clicked
    ensures FirstClick(documents, responses) == Some(i)
  {
    var k := FirstClick(documents, responses);
    assert k.Some?;
    assert !(k.value < i) && !(i < k.value);
  }

  /** `is_terminal()`: the session is over once the time budget is spent. */
  predicate IsTerminal(s: LTSUserState)
  {
    s.timeBudget <= 0
  }

  /**
   * The concrete behaviour of `LTSUserModel`: its responses, its state
   * update, the terminal test on the time budget, and an empty observation
   * (the state is hidden).
   */
  function LTSDynamics(exp: real -> real, normal: Distribution): Dynamics<LTSUserState, LTSResponse>
    requires ExpPositive(exp)
  {
    Dynamics(
      (s: LTSUserState, documents: seq<Document>, noise: Noise) => SimulateResponse(exp, normal, s, documents, noise),
      (s: LTSUserState, documents: seq<Document>, responses: seq<LTSResponse>, noise: Noise) =>
        Transition(exp, normal, s, documents, responses, noise),
      (s: LTSUserState) => IsTerminal(s),
      (s: LTSUserState) => VArray([]))
  }

  /**
   * One step of the environment for this user: the responses to `slate`
   * are simulated and fed back to the state update.
   */
  function Serve(exp: real -> real, normal: Distribution, s: LTSUserState, slate: seq<Document>, noise: StepNoise)
    : (r: Result<LTSUserState>)
    requires ExpPositive(exp)
  {
    var responses :- SimulateResponse(exp, normal, s, slate, noise.simulate);
    Transition(exp, normal, s, slate, responses, noise.transition)
  }

  /**
   * Serving a slate whose first document has a clickbait score and feeding
   * the responses back spends exactly one unit of the time budget: the
   * simulated click is always the one the update sees.
   */
  lemma {:induction false} ServeSpendsOneUnit(exp: real -> real, normal: Distribution, s: LTSUserState, slate: seq<Document>,
                           noise: StepNoise)
    requires ExpPositive(exp)
    requires slate != [] && slate[0].body.ClickbaitDoc?
    ensures SimulateResponse(exp, normal, s, slate, noise.simulate).Ok?
    ensures FirstClick(slate, SimulateResponse(exp, normal, s, slate, noise.simulate).value) == Some(0)
    ensures Serve(exp, normal, s, slate, noise)
      == Ok(Click(exp, normal, s, slate[0].body.clickbaitScore, NoiseAt(noise.transition, 0)))
  {
    var responses := SimulateResponse(exp, normal, s, slate, noise.simulate).value;
    FirstClickAt(slate, responses, 0);
    assert Serve(exp, normal, s, slate, noise) == Transition(exp, normal, s, slate, responses, noise.transition);
  }

  /**
   * A session served slate after slate until the user is terminal: the
   * final state and the number of slates served, or the first error.
   */
  function Session(exp: real -> real, normal: Distribution, s: LTSUserState, slates: seq<seq<Document>>,
                   noises: seq<StepNoise>)
    : (r: Result<(LTSUserState, nat)>)
    requires ExpPositive(exp) && |noises| == |slates|
    ensures r.Ok? ==> r.value.1 <= |slates|
    decreases |slates|
  {
    if slates == [] || IsTerminal(s) then Ok((s, 0))
    else
      var next :- Serve(exp, normal, s, slates[0], noises[0]);
      var rest :- Session(exp, normal, next, slates[1..], noises[1..]);
      Ok((rest.0, rest.1 + 1))
  }

  /**
   * With enough clickbait slates a session lasts exactly as many steps as
   * the user's time budget, and ends with the budget at zero; a user whose
   * budget is already spent is served nothing.
   */
  lemma {:induction false} SessionLength(exp: real -> real, normal: Distribution, s: LTSUserState,
                                         slates: seq<seq<Document>>, noises: seq<StepNoise>)
    requires ExpPositive(exp) && |noises| == |slates|
    requires forall i :: 0 <= i < |slates| ==> slates[i] != [] && slates[i][0].body.ClickbaitDoc?
    ensures Session(exp, normal, s, slates, noises).Ok?
    ensures Session(exp, normal, s, slates, noises).value.1 == if s.timeBudget <= 0 then 0 else Min(s.timeBudget, |slates|)
    ensures Session(exp, normal, s, slates, noises).value.0.timeBudget
      == s.timeBudget - Session(exp, normal, s, slates, noises).value.1
    decreases |slates|
  {
    if slates != [] && !IsTerminal(s) {
      ServeSpendsOneUnit(exp, normal, s, slates[0], noises[0]);
      var next := Serve(exp, normal, s, slates[0], noises[0]).value;
      SessionLength(exp, normal, next, slates[1..], noises[1..]);
    }
  }

  /** The smaller of two integers. */
  function Min(a: int, b: int): (m: int)
    ensures m <= a && m <= b && (m == a || m == b)
  {
    if a <= b then a else b
  }

  // ---------------------------------------------------------------------
  // The user model

  /**
   * `LTSUserModel(...)`: a missing response constructor raises TypeError
   * first; then the base constructor draws the first user from an
   * `LTSStaticUserSampler` with parameters `p` on the given seed, which
   * divides by `1 - memory_discount` (ZeroDivisionError when that is 0)
   * and then calls the user state constructor (TypeError when there is none).
   */
  method NewLTSUserModel(slateSize: nat, hasUserStateCtor: bool, responseSpace: Option<Space>, p: LTSParams, seed: int,
                         exp: real -> real, normal: Distribution, stream: Stream)
    returns (r: Result<UserModel<LTSUserState, LTSResponse>>)
    requires ExpPositive(exp)
    ensures responseSpace.None? ==> r == Err(TypeError)
    ensures responseSpace.Some? && p.memoryDiscount == 1.0 ==> r == Err(ZeroDivisionError)
    ensures responseSpace.Some? && p.memoryDiscount != 1.0 && !hasUserStateCtor ==> r == Err(TypeError)
    ensures r.Ok? <==> responseSpace.Some? && p.memoryDiscount != 1.0 && hasUserStateCtor
    ensures r.Ok? ==> (fresh(r.value) && fresh(r.value.sampler)
      && r.value.state == StaticUserRule(exp, p)(Seeded(seed), stream).0
      && r.value.sampler.rng == StaticUserRule(exp, p)(Seeded(seed), stream).1
      && r.value.sampler.seed == seed && r.value.sampler.rule == StaticUserRule(exp, p)
      && r.value.slateSize == slateSize && r.value.responseSpace == responseSpace.value
      && r.value.dynamics == LTSDynamics(exp, normal))
  {
    if responseSpace.None? {
      return Err(TypeError);
    }
    if p.memoryDiscount == 1.0 {
      return Err(ZeroDivisionError);
    }
    if !hasUserStateCtor {
      return Err(TypeError);
    }
    var sampler := new UserSampler(seed, StaticUserRule(exp, p));
    var model := NewUserModel(responseSpace, sampler, slateSize, LTSDynamics(exp, normal), stream);
    return Ok(model.value);
  }

  // ---------------------------------------------------------------------
  // Reward and environment

  /** The total engagement of the clicked responses. */
  function ClickedEngagement(responses: seq<LTSResponse>): real
  {
    if responses == [] then 0.0
    else
      var last := responses[|responses| - 1];
      ClickedEngagement(responses[..|responses| - 1]) + (if last.clicked then last.engagement else 0.0)
  }

  /** `clicked_engagement_reward(responses)`: each clicked response adds its engagement. */
  method ClickedEngagementReward(responses: seq<LTSResponse>) returns (reward: real)
    ensures reward == ClickedEngagement(responses)
  {
    reward := 0.0;
    var i := 0;
    while i < |responses|
      invariant 0 <= i <= |responses|
      invariant reward == ClickedEngagement(responses[..i])
    {
      assert responses[..i + 1][..i] == responses[..i];
      if responses[i].clicked {
        reward := reward + responses[i].engagement;
      }
      i := i + 1;
    }
    assert responses[..i] == responses;
  }

  /** When only the first response can be clicked, the reward is its engagement or nothing. */
  lemma {:induction false} OnlyFirstClicked(responses: seq<LTSResponse>)
    requires forall i :: 0 < i < |responses| ==> !responses[i].clicked
    ensures ClickedEngagement(responses) == if responses != [] && responses[0].clicked then responses[0].engagement else 0.0
  {
    if |responses| > 1 {
      OnlyFirstClicked(responses[..|responses| - 1]);
    }
  }

  /** The reward for a simulated slate is the engagement with its first document, which is positive. */
  lemma {:induction false} SimulatedReward(exp: real -> real, normal: Distribution, s: LTSUserState, documents: seq<Document>, noise: Noise)
    requires ExpPositive(exp)
    requires SimulateResponse(exp, normal, s, documents, noise).Ok?
    ensures var rs := SimulateResponse(exp, normal, s, documents, noise).value;
      ClickedEngagement(rs) == rs[0].engagement && ClickedEngagement(rs) > 0.0
  {
    OnlyFirstClicked(SimulateResponse(exp, normal, s, documents, noise).value);
  }

  /**
   * `create_environment(env_config)` without the gym wrapper: a user model
   * with the default sampler parameters on seed 0, a clickbait document
   * sampler on seed 0, and a single-user environment over them.
   */
  method CreateEnvironment(slateSize: nat, numCandidates: nat, resampleDocuments: bool,
                           exp: real -> real, normal: Distribution, stream: Stream)
    returns (r: Result<SingleUserEnvironment<LTSUserState, LTSResponse>>)
    requires ExpPositive(exp)
    ensures r.Ok? <==> slateSize <= numCandidates
    ensures r.Err? ==> r.error == AssertionError
    ensures r.Ok? ==> (fresh(r.value) && r.value.Valid()
      && r.value.user.dynamics == LTSDynamics(exp, normal) && r.value.user.responseSpace == ResponseSpace()
      && r.value.user.state == StaticUserRule(exp, DefaultParams)(Seeded(0), stream).0
      && r.value.env.sampler.rule == ClickbaitRule()
      && r.value.env.numCandidates == numCandidates && r.value.env.slateSize == slateSize)
  {
    var user := NewLTSUserModel(slateSize, true, Some(ResponseSpace()), DefaultParams, 0, exp, normal, stream);
    var sampler := NewClickbaitSampler(0);
    r := NewSingleUserEnvironment(user.value, sampler, numCandidates, slateSize, resampleDocuments, stream);
  }
}
