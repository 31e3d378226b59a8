// User choice models: how a user turns per-document scores into a categorical
// distribution over "click document i" and "click nothing", and how one
// outcome is drawn from it.
module ChoiceModel {
  import opened Basics

  /** `exp` is not computed here; every use asks only that it is positive. */
  ghost predicate ExpPositive(exp: real -> real)
  {
    forall x :: exp(x) > 0.0
  }

  function Max(v: seq<real>): (m: real)
    requires |v| > 0
    ensures forall i :: 0 <= i < |v| ==> v[i] <= m
    ensures exists i :: 0 <= i < |v| && v[i] == m
  {
    if |v| == 1 then v[0]
    else
      var m := Max(v[..|v| - 1]);
      assert forall i :: 0 <= i < |v| - 1 ==> v[..|v| - 1][i] == v[i];
      if v[|v| - 1] > m then v[|v| - 1] else m
  }

  /** Every entry of `s` divided by `t`. */
  function Normalize(s: seq<real>, t: real): (r: seq<real>)
    requires t != 0.0
    ensures |r| == |s| && forall i :: 0 <= i < |s| ==> r[i] == s[i] / t
  {
    seq(|s|, i requires 0 <= i < |s| => s[i] / t)
  }

  lemma {:induction false} SumNormalize(s: seq<real>, t: real)
    requires t != 0.0
    ensures Sum(Normalize(s, t)) == Sum(s) / t
    decreases |s|
  {
    if s != [] {
      var p := s[..|s| - 1];
      assert Normalize(s, t)[..|s| - 1] == Normalize(p, t);
      SumNormalize(p, t);
      assert Sum(p) / t + s[|s| - 1] / t == (Sum(p) + s[|s| - 1]) / t;
    }
  }

  /** `exp(v[i] - c)` for every entry. */
  function ShiftedExp(exp: real -> real, v: seq<real>, c: real): (r: seq<real>)
    ensures |r| == |v| && forall i :: 0 <= i < |v| ==> r[i] == exp(v[i] - c)
  {
    seq(|v|, i requires 0 <= i < |v| => exp(v[i] - c))
  }

  lemma {:induction false} PositiveSum(s: seq<real>)
    requires |s| > 0 && forall i :: 0 <= i < |s| ==> s[i] > 0.0
    ensures Sum(s) > 0.0
    decreases |s|
  {
    if |s| > 1 {
      PositiveSum(s[..|s| - 1]);
    }
  }

  /**
   * `softmax(vector)`: exponentiate after subtracting the maximum, then divide
   * by the total. Taking the maximum of an empty vector raises ValueError.
   */
  function Softmax(exp: real -> real, v: seq<real>): (r: Result<seq<real>>)
    requires ExpPositive(exp)
    ensures r.Ok? <==> |v| > 0
    ensures r.Ok? ==> |r.value| == |v| && Sum(r.value) == 1.0
    ensures r.Ok? ==> forall i :: 0 <= i < |v| ==> r.value[i] > 0.0
  {
    if |v| == 0 then Err(ValueError)
    else
      var e := ShiftedExp(exp, v, Max(v));
      PositiveSum(e);
      SumNormalize(e, Sum(e));
      assert Sum(e) / Sum(e) == 1.0;
      Ok(Normalize(e, Sum(e)))
  }

  /** Every entry of `s` multiplied by `k`. */
  function Scale(s: seq<real>, k: real): (r: seq<real>)
    ensures |r| == |s| && forall i :: 0 <= i < |s| ==> r[i] == Mul(s[i], k)
  {
    seq(|s|, i requires 0 <= i < |s| => Mul(s[i], k))
  }

  lemma {:induction false} SumScale(s: seq<real>, k: real)
    ensures Sum(Scale(s, k)) == Mul(Sum(s), k)
    decreases |s|
  {
    if s != [] {
      var p := s[..|s| - 1];
      forall i | 0 <= i < |p| ensures Scale(s, k)[..|s| - 1][i] == Scale(p, k)[i] {
        assert p[i] == s[i];
      }
      assert Scale(s, k)[..|s| - 1] == Scale(p, k);
      SumScale(p, k);
      assert Mul(Sum(p) + s[|s| - 1], k) == Mul(Sum(p), k) + Mul(s[|s| - 1], k);
    }
  }

  lemma {:induction false} RatioUnchangedByScaling(x: real, t: real, k: real)
    requires t > 0.0 && k > 0.0
    ensures Mul(x, k) / Mul(t, k) == x / t
  {
    assert (x / t) * (t * k) == x * k;
  }

  /**
   * Subtracting the maximum only guards against overflow: wherever `exp` turns
   * sums into products at the points involved, softmax is the textbook ratio
   * exp(v[i]) / sum_j exp(v[j]).
   */
  /** `exp` turns `v[i] = (v[i] - m) + m` into a product at every entry of `v`. */
  ghost predicate ExpFactorsAt(exp: real -> real, v: seq<real>, m: real)
  {
    forall i :: 0 <= i < |v| ==> exp(v[i]) == Mul(exp(v[i] - m), exp(m))
  }

  lemma {:induction false} ExpAllFactors(exp: real -> real, v: seq<real>, m: real)
    requires ExpFactorsAt(exp, v, m)
    ensures ExpAll(exp, v) == Scale(ShiftedExp(exp, v, m), exp(m))
  {
    var e := ShiftedExp(exp, v, m);
    forall i | 0 <= i < |v| ensures ExpAll(exp, v)[i] == Scale(e, exp(m))[i] {
      assert e[i] == exp(v[i] - m);
    }
  }

  /** Dividing the shifted exponentials by their total equals dividing the plain ones by theirs. */
  lemma {:induction false} RatioOfShiftedExps(exp: real -> real, v: seq<real>, m: real)
    requires ExpFactorsAt(exp, v, m) && exp(m) > 0.0
    requires Sum(ShiftedExp(exp, v, m)) > 0.0
    ensures Sum(ExpAll(exp, v)) > 0.0
    ensures forall i :: 0 <= i < |v| ==>
      Normalize(ShiftedExp(exp, v, m), Sum(ShiftedExp(exp, v, m)))[i] == exp(v[i]) / Sum(ExpAll(exp, v))
  {
    var e := ShiftedExp(exp, v, m);
    var k := exp(m);
    var t := Sum(e);
    ExpAllFactors(exp, v, m);
    SumScale(e, k);
    PositiveProduct(t, k);
    RatiosUnchangedByScaling(e, t, k);
  }

  /**
   * Subtracting the maximum only guards against overflow: wherever `exp` turns
   * sums into products at the points involved, softmax is the textbook ratio
   * exp(v[i]) / sum_j exp(v[j]).
   */
  lemma {:induction false} SoftmaxIsRatioOfExps(exp: real -> real, v: seq<real>)
    requires ExpPositive(exp) && |v| > 0
    requires ExpFactorsAt(exp, v, Max(v))
    ensures Sum(ExpAll(exp, v)) > 0.0
    ensures forall i :: 0 <= i < |v| ==> Softmax(exp, v).value[i] == exp(v[i]) / Sum(ExpAll(exp, v))
  {
    var m := Max(v);
    var e := ShiftedExp(exp, v, m);
    PositiveSum(e);
    RatioOfShiftedExps(exp, v, m);
  }

  /** Shifting every entry shifts the maximum by the same amount. */
  lemma {:induction false} MaxOfShift(v: seq<real>, c: real)
    requires |v| > 0
    ensures Max(Shift(v, c)) == Max(v) - c
    decreases |v|
  {
    if |v| > 1 {
      var p := v[..|v| - 1];
      assert Shift(v, c)[..|v| - 1] == Shift(p, c);
      MaxOfShift(p, c);
    }
  }

  /** Softmax is unchanged when the same constant is subtracted from every logit. */
  lemma {:induction false} SoftmaxShiftInvariant(exp: real -> real, v: seq<real>, c: real)
    requires ExpPositive(exp)
    ensures Softmax(exp, Shift(v, c)) == Softmax(exp, v)
  {
    if |v| > 0 {
      var w := Shift(v, c);
      SameShiftedExp(exp, v, c);
      SoftmaxOfShiftedExp(exp, v);
      SoftmaxOfShiftedExp(exp, w);
    }
  }

  lemma {:induction false} SameShiftedExp(exp: real -> real, v: seq<real>, c: real)
    requires |v| > 0
    ensures ShiftedExp(exp, Shift(v, c), Max(Shift(v, c))) == ShiftedExp(exp, v, Max(v))
  {
    MaxOfShift(v, c);
    ShiftedExpEqual(exp, v, Max(v), Shift(v, c), Max(Shift(v, c)));
  }

  lemma {:induction false} ShiftedExpEqual(exp: real -> real, v: seq<real>, a: real, w: seq<real>, b: real)
    requires |v| == |w| && forall i :: 0 <= i < |v| ==> w[i] - b == v[i] - a
    ensures ShiftedExp(exp, w, b) == ShiftedExp(exp, v, a)
  {
    forall i | 0 <= i < |v| ensures ShiftedExp(exp, w, b)[i] == ShiftedExp(exp, v, a)[i] {
      assert w[i] - b == v[i] - a;
    }
  }

  lemma {:induction false} SoftmaxOfShiftedExp(exp: real -> real, v: seq<real>)
    requires ExpPositive(exp) && |v| > 0
    ensures Sum(ShiftedExp(exp, v, Max(v))) > 0.0
    ensures Softmax(exp, v) == Ok(Normalize(ShiftedExp(exp, v, Max(v)), Sum(ShiftedExp(exp, v, Max(v)))))
  {
    PositiveSum(ShiftedExp(exp, v, Max(v)));
  }

  lemma {:induction false} PositiveProduct(x: real, y: real)
    requires x > 0.0 && y > 0.0
    ensures Mul(x, y) > 0.0
  {
  }

  lemma {:induction false} RatiosUnchangedByScaling(e: seq<real>, t: real, k: real)
    requires t > 0.0 && k > 0.0
    ensures forall i :: 0 <= i < |e| ==> Normalize(e, t)[i] == Scale(e, k)[i] / Mul(t, k)
  {
    forall i | 0 <= i < |e| ensures Normalize(e, t)[i] == Scale(e, k)[i] / Mul(t, k) {
      RatioUnchangedByScaling(e[i], t, k);
    }
  }

  /**
   * numpy's `choice(n, p=probs)` with the uniform draw `u` in [0, 1): the first
   * index whose cumulative probability exceeds `u`.
   */
  function Choice(p: seq<real>, u: real): (i: nat)
    requires |p| > 0
    ensures i < |p|
  {
    ChoiceFrom(p, u, 0)
  }

  function ChoiceFrom(p: seq<real>, u: real, k: nat): (i: nat)
    requires k < |p|
    ensures k <= i < |p|
    decreases |p| - k
  {
    if k == |p| - 1 || u < Sum(p[..k + 1]) then k else ChoiceFrom(p, u, k + 1)
  }

  lemma {:induction false} PrefixSumStep(p: seq<real>, k: nat)
    requires k < |p|
    ensures Sum(p[..k + 1]) == Sum(p[..k]) + p[k]
  {
    assert p[..k + 1][..k] == p[..k];
  }

  lemma {:induction false} ChoiceFromBracket(p: seq<real>, u: real, k: nat)
    requires k < |p| && Sum(p) == 1.0 && u < 1.0
    requires Sum(p[..k]) <= u
    ensures Sum(p[..ChoiceFrom(p, u, k)]) <= u < Sum(p[..ChoiceFrom(p, u, k) + 1])
    decreases |p| - k
  {
    if k == |p| - 1 {
      assert p[..k + 1] == p;
    } else if u >= Sum(p[..k + 1]) {
      ChoiceFromBracket(p, u, k + 1);
    }
  }

  /**
   * For a proper distribution the drawn index brackets the draw between two
   * cumulative sums, so it always has positive probability.
   */
  lemma {:induction false} ChoiceHasPositiveMass(p: seq<real>, u: real)
    requires |p| > 0 && Sum(p) == 1.0 && 0.0 <= u < 1.0
    ensures Sum(p[..Choice(p, u)]) <= u < Sum(p[..Choice(p, u) + 1])
    ensures p[Choice(p, u)] > 0.0
  {
    assert p[..0] == [];
    ChoiceFromBracket(p, u, 0);
    PrefixSumStep(p, Choice(p, u));
  }

  predicate NonNegative(s: seq<real>)
  {
    forall i :: 0 <= i < |s| ==> s[i] >= 0.0
  }

  /**
   * `choose_item`: append the no-click score, divide by the total and draw.
   * The last slot means "no click" (None). A zero total or a negative
   * probability makes numpy raise ValueError.
   */
  function ChoiceOf(scores: seq<real>, noClick: real, u: real): (r: Result<Option<nat>>)
    requires 0.0 <= u < 1.0
    ensures r.Ok? <==> (Sum(scores + [noClick]) != 0.0
                        && NonNegative(Normalize(scores + [noClick], Sum(scores + [noClick]))))
    ensures r.Ok? && r.value.Some? ==>
      r.value.value < |scores| && scores[r.value.value] / Sum(scores + [noClick]) > 0.0
    ensures r.Ok? && r.value.None? ==> noClick / Sum(scores + [noClick]) > 0.0
    ensures r.Ok? ==>
      var p := Normalize(scores + [noClick], Sum(scores + [noClick]));
      var i := if r.value.Some? then r.value.value else |scores|;
      Sum(p[..i]) <= u < Sum(p[..i + 1])
  {
    var all := scores + [noClick];
    var total := Sum(all);
    if total == 0.0 then Err(ValueError)
    else
      var probs := Normalize(all, total);
      if !NonNegative(probs) then Err(ValueError)
      else
        SumNormalize(all, total);
        assert total / total == 1.0;
        ChoiceHasPositiveMass(probs, u);
        var i := Choice(probs, u);
        if i == |all| - 1 then Ok(None) else Ok(Some(i))
  }

  /** A choice model whose no-click slot has zero mass never returns None. */
  lemma {:induction false} ZeroNoClickAlwaysClicks(scores: seq<real>, u: real)
    requires 0.0 <= u < 1.0
    requires ChoiceOf(scores, 0.0, u).Ok?
    ensures ChoiceOf(scores, 0.0, u).value.Some?
  {
  }

  /** A positive distribution split into its first entries and its last one. */
  lemma {:induction false} SplitLast(all: seq<real>, front: seq<real>)
    requires |all| > 0 && Sum(all) == 1.0
    requires forall i :: 0 <= i < |all| ==> all[i] > 0.0
    requires front == all[..|all| - 1]
    ensures front + [all[|all| - 1]] == all
    ensures Sum(front) + all[|all| - 1] == 1.0
    ensures all[|all| - 1] > 0.0
    ensures forall i :: 0 <= i < |front| ==> front[i] > 0.0
  {
  }

  /** Scores for the documents of a slate and for "no click". */
  datatype Scores = Scores(scores: seq<real>, noClick: real)

  /** The no-click logit: `-inf` when the features leave it out, or a given value (None is Python's None). */
  datatype Mass = NegInf | Finite(value: real) | NoneValue

  /**
   * Multinomial logit: `softmax(logits ++ [no_click_mass])` split into the
   * document scores and the no-click score. With a `-inf` mass, exp(-inf) is 0
   * and the documents share all the mass; with no documents the maximum is
   * `-inf`, the subtraction gives NaN, and the later draw raises ValueError. A
   * None mass cannot be compared and raises TypeError.
   */
  function LogitScores(exp: real -> real, logits: seq<real>, mass: Mass): (r: Result<Scores>)
    requires ExpPositive(exp)
    ensures r.Ok? <==> mass.Finite? || (mass.NegInf? && |logits| > 0)
    ensures r.Ok? ==> |r.value.scores| == |logits|
                      && Sum(r.value.scores) + r.value.noClick == 1.0
                      && forall i :: 0 <= i < |logits| ==> r.value.scores[i] > 0.0
    ensures r.Ok? ==> (r.value.noClick == 0.0 <==> mass.NegInf?)
    ensures r.Ok? && mass.Finite? ==>
      r.value.scores + [r.value.noClick] == Softmax(exp, logits + [mass.value]).value
  {
    match mass
    case NoneValue => Err(TypeError)
    case NegInf =>
      if logits == [] then Err(ValueError)
      else Ok(Scores(Softmax(exp, logits).value, 0.0))
    case Finite(m) =>
      var all := Softmax(exp, logits + [m]).value;
      SplitLast(all, all[..|logits|]);
      Ok(Scores(all[..|logits|], all[|logits|]))
  }

  /** Every entry of `s` minus `c`. */
  function Shift(s: seq<real>, c: real): (r: seq<real>)
    ensures |r| == |s| && forall i :: 0 <= i < |s| ==> r[i] == s[i] - c
  {
    seq(|s|, i requires 0 <= i < |s| => s[i] - c)
  }

  /**
   * Multinomial proportional: `scores ++ [no_click_mass]` minus
   * `min_normalizer`, asserted non-negative. A None normalizer or mass
   * raises TypeError.
   */
  function ProportionalScores(raw: seq<real>, minNormalizer: Option<real>, mass: Option<real>): (r: Result<Scores>)
    ensures minNormalizer.None? || mass.None? ==> r == Err(TypeError)
    ensures r.Ok? <==> minNormalizer.Some? && mass.Some?
                       && NonNegative(Shift(raw + [mass.value], minNormalizer.value))
    ensures r.Ok? ==> |r.value.scores| == |raw|
                      && r.value.noClick == mass.value - minNormalizer.value
                      && forall i :: 0 <= i < |raw| ==> r.value.scores[i] == raw[i] - minNormalizer.value
  {
    if minNormalizer.None? || mass.None? then Err(TypeError)
    else
      var all := Shift(raw + [mass.value], minNormalizer.value);
      if !NonNegative(all) then Err(AssertionError)
      else
        assert all[|raw|] == mass.value - minNormalizer.value;
        Ok(Scores(all[..|raw|], all[|raw|]))
  }

  // ---------------------------------------------------------------------
  // Cascade models

  /** A raw score turned into a click probability by `score_scaling`. */
  function Scaled(c: real, x: real): real
  {
    Mul(c, x)
  }

  /** The scaled score is a valid probability bound: at most 1. */
  predicate Fits(c: real, x: real)
  {
    Scaled(c, x) <= 1.0
  }

  /** Probability of clicking an examined position: attention times scaled score. */
  function ClickProbability(a: real, c: real, x: real): real
  {
    Mul(a, Scaled(c, x))
  }

  /** Probability that none of the documents in `s` is clicked: prod_j (1 - a * c * s[j]). */
  function CascadeNoClick(a: real, c: real, s: seq<real>): real
  {
    if s == [] then 1.0
    else Mul(CascadeNoClick(a, c, s[..|s| - 1]), 1.0 - ClickProbability(a, c, s[|s| - 1]))
  }

  /** Probability of clicking each position: a * c * s[i] * prod_{j<i} (1 - a * c * s[j]). */
  function CascadeScores(a: real, c: real, s: seq<real>): (r: seq<real>)
    ensures |r| == |s|
  {
    if s == [] then []
    else
      var p := s[..|s| - 1];
      CascadeScores(a, c, p) + [Mul(CascadeNoClick(a, c, p), ClickProbability(a, c, s[|s| - 1]))]
  }

  lemma {:induction false} CascadeScoresAt(a: real, c: real, s: seq<real>, i: nat)
    requires i < |s|
    ensures CascadeScores(a, c, s)[i] == Mul(CascadeNoClick(a, c, s[..i]), ClickProbability(a, c, s[i]))
    decreases |s|
  {
    var p := s[..|s| - 1];
    if i < |s| - 1 {
      CascadeScoresAt(a, c, p, i);
      assert p[..i] == s[..i];
      assert p[i] == s[i];
    } else {
      assert p == s[..i];
    }
  }

  lemma {:induction false} Distribute(n: real, x: real)
    ensures Mul(n, x) + Mul(n, 1.0 - x) == n
  {
  }

  /** The cascade's click and no-click probabilities always add up to 1 (the product telescopes). */
  lemma {:induction false} CascadeMassIsOne(a: real, c: real, s: seq<real>)
    ensures Sum(CascadeScores(a, c, s)) + CascadeNoClick(a, c, s) == 1.0
    decreases |s|
  {
    if s != [] {
      var p := s[..|s| - 1];
      var n := CascadeNoClick(a, c, p);
      var x := ClickProbability(a, c, s[|s| - 1]);
      CascadeMassIsOne(a, c, p);
      SumAppend(CascadeScores(a, c, p), [Mul(n, x)]);
      assert Sum([Mul(n, x)]) == Mul(n, x) by {
        assert [Mul(n, x)][..0] == [];
      }
      Distribute(n, x);
    }
  }

  lemma {:induction false} AtMostFirst(x: real, y: real)
    requires 0.0 <= x && y <= 1.0
    ensures x * y <= x
  {
    assert x * y <= x * 1.0;
  }

  lemma {:induction false} ProductInUnit(x: real, y: real)
    requires 0.0 <= x <= 1.0 && 0.0 <= y <= 1.0
    ensures 0.0 <= Mul(x, y) <= 1.0
  {
    AtMostFirst(x, y);
  }

  /** With probabilities as inputs, every cascade term and the no-click term lie in [0, 1]. */
  lemma {:induction false} CascadeTermsInUnit(a: real, c: real, s: seq<real>)
    requires 0.0 <= a <= 1.0
    requires forall i :: 0 <= i < |s| ==> 0.0 <= Scaled(c, s[i]) <= 1.0
    ensures 0.0 <= CascadeNoClick(a, c, s) <= 1.0
    ensures forall i :: 0 <= i < |s| ==> 0.0 <= CascadeScores(a, c, s)[i] <= 1.0
    decreases |s|
  {
    if s != [] {
      var p := s[..|s| - 1];
      forall i | 0 <= i < |p| ensures 0.0 <= Scaled(c, p[i]) <= 1.0 {
        assert p[i] == s[i];
      }
      CascadeTermsInUnit(a, c, p);
      var n := CascadeNoClick(a, c, p);
      var x := ClickProbability(a, c, s[|s| - 1]);
      ProductInUnit(a, Scaled(c, s[|s| - 1]));
      assert 0.0 <= x <= 1.0;
      ProductInUnit(n, 1.0 - x);
      ProductInUnit(n, x);
      var cs := CascadeScores(a, c, s);
      assert cs == CascadeScores(a, c, p) + [Mul(n, x)];
      forall i | 0 <= i < |s| ensures 0.0 <= cs[i] <= 1.0 {
        if i < |p| {
          assert cs[i] == CascadeScores(a, c, p)[i];
        }
      }
    }
  }

  /** With `score_scaling = 0` nothing is ever clicked: all scores 0, no-click 1. */
  lemma {:induction false} CascadeZeroScaling(a: real, s: seq<real>)
    ensures CascadeNoClick(a, 0.0, s) == 1.0
    ensures forall i :: 0 <= i < |s| ==> CascadeScores(a, 0.0, s)[i] == 0.0
    decreases |s|
  {
    if s != [] {
      var p := s[..|s| - 1];
      CascadeZeroScaling(a, p);
      assert ClickProbability(a, 0.0, s[|s| - 1]) == 0.0;
      var cs := CascadeScores(a, 0.0, s);
      forall i | 0 <= i < |s| ensures cs[i] == 0.0 {
        if i < |p| {
          assert cs[i] == CascadeScores(a, 0.0, p)[i];
        }
      }
    }
  }

  /** Zero scores with all the mass on "no click" always draw None. */
  lemma {:induction false} NoMassChoosesNothing(scores: seq<real>, u: real)
    requires 0.0 <= u < 1.0
    requires forall i :: 0 <= i < |scores| ==> scores[i] == 0.0
    ensures ChoiceOf(scores, 1.0, u) == Ok(None)
  {
    var all := scores + [1.0];
    assert all[..|scores|] == scores;
    SumOfZeros(scores);
    assert Sum(all) == 1.0;
    var probs := Normalize(all, 1.0);
    forall i | 0 <= i < |all| ensures probs[i] == all[i] && probs[i] >= 0.0 {
      assert all[i] / 1.0 == all[i];
    }
    assert ChoiceOf(scores, 1.0, u).Ok?;
  }

  /** ... so with `score_scaling = 0`, `choose_item` returns None whatever the draw. */
  lemma {:induction false} ZeroScalingChoosesNothing(a: real, s: seq<real>, u: real)
    requires 0.0 <= u < 1.0
    ensures ChoiceOf(CascadeScores(a, 0.0, s), CascadeNoClick(a, 0.0, s), u) == Ok(None)
  {
    CascadeZeroScaling(a, s);
    NoMassChoosesNothing(CascadeScores(a, 0.0, s), u);
  }

  /** The first position whose scaled score is not a probability, if any. */
  function FirstOverflow(c: real, s: seq<real>): (k: nat)
    ensures k <= |s|
    ensures forall i :: 0 <= i < k ==> Fits(c, s[i])
    ensures k < |s| ==> !Fits(c, s[k])
  {
    if s == [] then 0
    else
      var k := FirstOverflow(c, s[..|s| - 1]);
      if k < |s| - 1 then k
      else if !Fits(c, s[|s| - 1]) then |s| - 1
      else |s|
  }

  lemma {:induction false} FirstOverflowIs(c: real, s: seq<real>, k: nat)
    requires k <= |s|
    requires forall i :: 0 <= i < k ==> Fits(c, s[i])
    requires k < |s| ==> !Fits(c, s[k])
    ensures FirstOverflow(c, s) == k
  {
  }

  lemma {:induction false} Reassociate(n: real, a: real, x: real)
    ensures n * a * x == Mul(n, Mul(a, x))
    ensures n * (1.0 - a * x) == Mul(n, 1.0 - Mul(a, x))
  {
  }

  /**
   * `_positional_normalization`: walks the slate in order, overwriting each
   * score with its cascade click probability and keeping the running no-click
   * probability `noClick`. It stops with AssertionError at the first position
   * whose scaled score exceeds 1, leaving the earlier positions already
   * rewritten and `noClick` as far as it got.
   */
  method PositionalNormalization(scores: array<real>, attention: real, scaling: real)
    returns (r: Result<()>, noClick: real)
    modifies scores
    ensures var s := old(scores[..]); var k := FirstOverflow(scaling, s);
      && (r.Ok? <==> k == |s|)
      && noClick == CascadeNoClick(attention, scaling, s[..k])
      && (r.Ok? ==> scores[..] == CascadeScores(attention, scaling, s))
      && (r.Err? ==> r.error == AssertionError
                     && scores[..k] == CascadeScores(attention, scaling, s[..k])
                     && scores[k..] == s[k..])
  {
    ghost var s := scores[..];
    noClick := 1.0;
    var i := 0;
    while i < scores.Length
      invariant 0 <= i <= scores.Length
      invariant forall j :: 0 <= j < i ==> Fits(scaling, s[j])
      invariant scores[..i] == CascadeScores(attention, scaling, s[..i])
      invariant scores[i..] == s[i..]
      invariant noClick == CascadeNoClick(attention, scaling, s[..i])
    {
      assert scores[i..][0] == scores[i];
      var x := scaling * scores[i];
      assert x == Scaled(scaling, s[i]);
      Reassociate(noClick, attention, x);
      if x > 1.0 {
        FirstOverflowIs(scaling, s, i);
        return Err(AssertionError), noClick;
      }
      ghost var p := s[..i + 1];
      assert p[..i] == s[..i];
      assert CascadeScores(attention, scaling, p)
          == CascadeScores(attention, scaling, s[..i])
             + [Mul(CascadeNoClick(attention, scaling, s[..i]), ClickProbability(attention, scaling, s[i]))];
      assert CascadeNoClick(attention, scaling, p)
          == Mul(CascadeNoClick(attention, scaling, s[..i]), 1.0 - ClickProbability(attention, scaling, s[i]));
      scores[i] := noClick * attention * x;
      noClick := noClick * (1.0 - attention * x);
      assert scores[..i + 1] == scores[..i] + [scores[i]];
      i := i + 1;
    }
    assert s[..i] == s;
    FirstOverflowIs(scaling, s, |s|);
    return Ok(()), noClick;
  }

  /**
   * The cascade constructor's checks on `attention_prob` (default 1.0) and
   * `score_scaling` (no default). Either one read as None cannot be compared
   * with 0.0 and raises TypeError; the attention check comes first.
   */
  function CascadeParameters(attention: Option<real>, scaling: Option<real>): (r: Result<(real, real)>)
    ensures r.Ok? <==> attention.Some? && 0.0 <= attention.value <= 1.0 && scaling.Some? && scaling.value >= 0.0
    ensures r.Ok? ==> r.value == (attention.value, scaling.value)
    ensures attention.None? ==> r == Err(TypeError)
    ensures attention.Some? && !(0.0 <= attention.value <= 1.0) ==> r == Err(ValueError)
    ensures r.Err? && attention.Some? && 0.0 <= attention.value <= 1.0 ==>
      r.error == (if scaling.None? then TypeError else ValueError)
  {
    if attention.None? then Err(TypeError)
    else if attention.value < 0.0 || attention.value > 1.0 then Err(ValueError)
    else if scaling.None? then Err(TypeError)
    else if scaling.value < 0.0 then Err(ValueError)
    else Ok((attention.value, scaling.value))
  }

  /** Number of negative entries of `s`. */
  function CountNegative(s: seq<real>): (n: nat)
    ensures n <= |s|
    ensures n == 0 <==> NonNegative(s)
  {
    if s == [] then 0
    else
      assert forall i :: 0 <= i < |s| - 1 ==> s[..|s| - 1][i] == s[i];
      CountNegative(s[..|s| - 1]) + (if s[|s| - 1] < 0.0 then 1 else 0)
  }

  /** `exp` of every entry. */
  function ExpAll(exp: real -> real, s: seq<real>): (r: seq<real>)
    ensures |r| == |s| && forall i :: 0 <= i < |s| ==> r[i] == exp(s[i])
  {
    seq(|s|, i requires 0 <= i < |s| => exp(s[i]))
  }

  /** Exponential cascade: exponentiate the raw scores, then normalize positionally. */
  function ExponentialCascadeScores(exp: real -> real, raw: seq<real>, a: real, c: real): (r: Result<Scores>)
    ensures r.Ok? <==> FirstOverflow(c, ExpAll(exp, raw)) == |raw|
    ensures r.Ok? ==> Sum(r.value.scores) + r.value.noClick == 1.0
                      && r.value.scores == CascadeScores(a, c, ExpAll(exp, raw))
                      && r.value.noClick == CascadeNoClick(a, c, ExpAll(exp, raw))
  {
    var s := ExpAll(exp, raw);
    if FirstOverflow(c, s) < |s| then Err(AssertionError)
    else
      CascadeMassIsOne(a, c, s);
      Ok(Scores(CascadeScores(a, c, s), CascadeNoClick(a, c, s)))
  }

  /**
   * Proportional cascade: subtract `min_normalizer` (None raises TypeError),
   * then normalize positionally. The guard `assert not scores[scores < 0]`
   * fails with AssertionError for one negative entry, and numpy refuses to
   * take the truth value of two or more (ValueError).
   */
  function ProportionalCascadeScores(raw: seq<real>, minNormalizer: Option<real>, a: real, c: real): (r: Result<Scores>)
    ensures r.Ok? <==> minNormalizer.Some?
                       && NonNegative(Shift(raw, minNormalizer.value))
                       && FirstOverflow(c, Shift(raw, minNormalizer.value)) == |raw|
    ensures r.Ok? ==> Sum(r.value.scores) + r.value.noClick == 1.0
                      && r.value.scores == CascadeScores(a, c, Shift(raw, minNormalizer.value))
                      && r.value.noClick == CascadeNoClick(a, c, Shift(raw, minNormalizer.value))
    ensures r.Err? && minNormalizer.Some? && CountNegative(Shift(raw, minNormalizer.value)) == 1 ==>
      r.error == AssertionError
  {
    if minNormalizer.None? then Err(TypeError)
    else
      var s := Shift(raw, minNormalizer.value);
      var negatives := CountNegative(s);
      if negatives == 1 then Err(AssertionError)
      else if negatives > 1 then Err(ValueError)
      else if FirstOverflow(c, s) < |s| then Err(AssertionError)
      else
        CascadeMassIsOne(a, c, s);
        Ok(Scores(CascadeScores(a, c, s), CascadeNoClick(a, c, s)))
  }

  /**
   * The choice features a user state hands to its choice model. A key maps to
   * None when the user state carries the key with value None.
   */
  type ChoiceFeatures = map<string, Option<real>>

  /** `choice_features.get(key, default)`. */
  function GetFeature(f: ChoiceFeatures, key: string, default: Option<real>): Option<real>
  {
    if key in f then f[key] else default
  }

  /** The four concrete choice models, with their parameters read from the features. */
  datatype ChoiceKind =
    | MultinomialLogit(logitMass: Mass)
    | MultinomialProportional(minNormalizer: Option<real>, noClickMass: Option<real>)
    | ExponentialCascade(attention: real, scaling: real)
    | ProportionalCascade(attention: real, scaling: real, minNormalizer: Option<real>)

  datatype ChoiceModelCtor =
    | MultinomialLogitCtor
    | MultinomialProportionalCtor
    | ExponentialCascadeCtor
    | ProportionalCascadeCtor

  /** Building a choice model from its features: only the cascades validate anything. */
  function MakeChoiceModel(ctor: ChoiceModelCtor, f: ChoiceFeatures): (r: Result<ChoiceKind>)
    ensures (ctor.MultinomialLogitCtor? || ctor.MultinomialProportionalCtor?) ==> r.Ok?
    ensures ctor.MultinomialLogitCtor? ==>
      r.value.MultinomialLogit? && ("no_click_mass" !in f <==> r.value.logitMass.NegInf?)
    ensures ctor.MultinomialLogitCtor? && "no_click_mass" in f ==>
      r.value.logitMass == (if f["no_click_mass"].None? then NoneValue else Finite(f["no_click_mass"].value))
    ensures ctor.MultinomialProportionalCtor? ==>
      r.value == MultinomialProportional(if "min_normalizer" in f then f["min_normalizer"] else None,
                                         if "no_click_mass" in f then f["no_click_mass"] else Some(0.0))
    ensures (ctor.ExponentialCascadeCtor? || ctor.ProportionalCascadeCtor?) ==>
      (r.Ok? <==> CascadeParameters(GetFeature(f, "attention_prob", Some(1.0)), GetFeature(f, "score_scaling", None)).Ok?)
    ensures (ctor.ExponentialCascadeCtor? || ctor.ProportionalCascadeCtor?) && "attention_prob" in f && f["attention_prob"].None? ==>
      r == Err(TypeError)
    ensures (ctor.ExponentialCascadeCtor? || ctor.ProportionalCascadeCtor?) && r.Ok? ==>
      && (if ctor.ExponentialCascadeCtor? then r.value.ExponentialCascade? else r.value.ProportionalCascade?)
      && r.value.attention == (if "attention_prob" in f then f["attention_prob"].value else 1.0)
      && r.value.scaling == f["score_scaling"].value
    ensures ctor.ProportionalCascadeCtor? && r.Ok? ==>
      r.value.minNormalizer == (if "min_normalizer" in f then f["min_normalizer"] else None)
  {
    match ctor
    case MultinomialLogitCtor =>
      var mass := if "no_click_mass" !in f then NegInf
                  else if f["no_click_mass"].None? then NoneValue
                  else Finite(f["no_click_mass"].value);
      Ok(MultinomialLogit(mass))
    case MultinomialProportionalCtor =>
      Ok(MultinomialProportional(GetFeature(f, "min_normalizer", None), GetFeature(f, "no_click_mass", Some(0.0))))
    case ExponentialCascadeCtor =>
      var p :- CascadeParameters(GetFeature(f, "attention_prob", Some(1.0)), GetFeature(f, "score_scaling", None));
      Ok(ExponentialCascade(p.0, p.1))
    case ProportionalCascadeCtor =>
      var p :- CascadeParameters(GetFeature(f, "attention_prob", Some(1.0)), GetFeature(f, "score_scaling", None));
      Ok(ProportionalCascade(p.0, p.1, GetFeature(f, "min_normalizer", None)))
  }

  /**
   * `[user_state.score_document(doc) for doc in doc_obs]`: the raw score of
   * every document observation, in order; the first one that raises decides
   * the error.
   */
  function ScoreAll<S, V>(score: (S, V) -> Result<real>, state: S, obs: seq<V>): (r: Result<seq<real>>)
    ensures r.Ok? <==> forall i :: 0 <= i < |obs| ==> score(state, obs[i]).Ok?
    ensures r.Ok? ==> |r.value| == |obs| && forall i :: 0 <= i < |obs| ==> r.value[i] == score(state, obs[i]).value
    ensures r.Err? ==> exists i :: 0 <= i < |obs| && score(state, obs[i]) == Err(r.error)
                                   && forall k :: 0 <= k < i ==> score(state, obs[k]).Ok?
  {
    if obs == [] then Ok([])
    else
      var first := score(state, obs[0]);
      if first.Err? then Err(first.error)
      else
        var rest := ScoreAll(score, state, obs[1..]);
        if rest.Err? then
          var j :| 0 <= j < |obs[1..]| && score(state, obs[1..][j]) == Err(rest.error)
                   && forall k :: 0 <= k < j ==> score(state, obs[1..][k]).Ok?;
          assert score(state, obs[j + 1]) == Err(rest.error);
          Err(rest.error)
        else
          Ok([first.value] + rest.value)
  }

  /** `score_documents` of each model, given the user state's raw score of each document. */
  function ScoresFor(exp: real -> real, kind: ChoiceKind, raw: seq<real>): (r: Result<Scores>)
    requires ExpPositive(exp)
    ensures r.Ok? ==> |r.value.scores| == |raw|
    ensures r.Ok? && !kind.MultinomialProportional? ==> Sum(r.value.scores) + r.value.noClick == 1.0
  {
    match kind
    case MultinomialLogit(mass) => LogitScores(exp, raw, mass)
    case MultinomialProportional(mn, mass) => ProportionalScores(raw, mn, mass)
    case ExponentialCascade(a, c) => ExponentialCascadeScores(exp, raw, a, c)
    case ProportionalCascade(a, c, mn) => ProportionalCascadeScores(raw, mn, a, c)
  }

  /**
   * `score_documents(user_state, doc_obs)` with the user state's scoring
   * function: the model's scores for the slate.
   */
  function ScoreSlate<S, V>(exp: real -> real, kind: ChoiceKind, score: (S, V) -> Result<real>, state: S, obs: seq<V>)
    : (r: Result<Scores>)
    requires ExpPositive(exp)
    ensures r.Ok? ==> ScoreAll(score, state, obs).Ok? && |r.value.scores| == |obs|
  {
    var raw :- ScoreAll(score, state, obs);
    ScoresFor(exp, kind, raw)
  }

  /** `score_documents` followed by `choose_item()` on the draw `u`: a slate position or None. */
  function ChooseFrom<S, V>(exp: real -> real, kind: ChoiceKind, score: (S, V) -> Result<real>, state: S, obs: seq<V>, u: Unit)
    : (r: Result<Option<nat>>)
    requires ExpPositive(exp)
    ensures r.Ok? ==> ScoreSlate(exp, kind, score, state, obs).Ok?
    ensures r.Ok? && r.value.Some? ==> r.value.value < |obs|
  {
    var s :- ScoreSlate(exp, kind, score, state, obs);
    ChoiceOf(s.scores, s.noClick, u)
  }

  /**
   * The slate a cascade model normalizes positionally: the exponentiated
   * scores, or the scores shifted by `min_normalizer` once none is
   * negative. None where `score_documents` never reaches the normalization.
   */
  function CascadeInput(exp: real -> real, kind: ChoiceKind, raw: seq<real>): (r: Option<seq<real>>)
    ensures r.Some? ==> (kind.ExponentialCascade? || kind.ProportionalCascade?) && |r.value| == |raw|
    ensures kind.ExponentialCascade? ==> r == Some(ExpAll(exp, raw))
    ensures kind.ProportionalCascade? ==>
      (r.Some? <==> kind.minNormalizer.Some? && NonNegative(Shift(raw, kind.minNormalizer.value)))
    ensures kind.ProportionalCascade? && r.Some? ==> r.value == Shift(raw, kind.minNormalizer.value)
  {
    match kind
    case ExponentialCascade(_, _) => Some(ExpAll(exp, raw))
    case ProportionalCascade(_, _, mn) =>
      if mn.Some? && CountNegative(Shift(raw, mn.value)) == 0 then Some(Shift(raw, mn.value)) else None
    case _ => None
  }

  /**
   * A choice model object: its parameters, and the `_scores` and
   * `_score_no_click` of the last `score_documents` call (both None before
   * the first one).
   */
  class NormalizableChoiceModel {
    const kind: ChoiceKind
    var scores: Option<seq<real>>
    var scoreNoClick: Option<real>

    constructor (kind: ChoiceKind)
      ensures this.kind == kind && scores.None? && scoreNoClick.None?
    {
      this.kind := kind;
      scores := None;
      scoreNoClick := None;
    }

    /**
     * Scores the slate and stores the result. The cascades run the in-place
     * positional normalization over a fresh array of the (transformed)
     * scores; when its assert fires, `_score_no_click` has already been
     * rewritten up to the failing position while `_scores` keeps its old
     * value. Every other error leaves both untouched.
     */
    method ScoreDocuments(exp: real -> real, raw: seq<real>) returns (r: Result<()>)
      requires ExpPositive(exp)
      modifies this
      ensures var s := ScoresFor(exp, kind, raw); var t := CascadeInput(exp, kind, raw);
        && (r.Ok? <==> s.Ok?)
        && (s.Ok? ==> scores == Some(s.value.scores) && scoreNoClick == Some(s.value.noClick))
        && (s.Err? ==> r.error == s.error && scores == old(scores))
        && (s.Err? && t.None? ==> scoreNoClick == old(scoreNoClick))
        && (s.Err? && t.Some? ==>
              FirstOverflow(kind.scaling, t.value) < |raw|
              && scoreNoClick == Some(CascadeNoClick(kind.attention, kind.scaling,
                                                     t.value[..FirstOverflow(kind.scaling, t.value)])))
    {
      match kind {
        case MultinomialLogit(mass) =>
          var s :- LogitScores(exp, raw, mass);
          scores, scoreNoClick := Some(s.scores), Some(s.noClick);
          return Ok(());
        case MultinomialProportional(mn, mass) =>
          var s :- ProportionalScores(raw, mn, mass);
          scores, scoreNoClick := Some(s.scores), Some(s.noClick);
          return Ok(());
        case ExponentialCascade(a, c) =>
          r := NormalizeCascade(ExpAll(exp, raw), a, c);
        case ProportionalCascade(a, c, mn) =>
          if mn.None? {
            return Err(TypeError);
          }
          var shifted := Shift(raw, mn.value);
          var negatives := CountNegative(shifted);
          if negatives == 1 {
            return Err(AssertionError);
          } else if negatives > 1 {
            return Err(ValueError);
          }
          r := NormalizeCascade(shifted, a, c);
      }
    }

    /**
     * The cascades' common tail: the positional normalization over a fresh
     * array holding `t`, with `_score_no_click` written whether or not its
     * assert fires and `_scores` only when it does not.
     */
    method NormalizeCascade(t: seq<real>, attention: real, scaling: real) returns (r: Result<()>)
      modifies this
      ensures var k := FirstOverflow(scaling, t);
        && (r.Ok? <==> k == |t|)
        && scoreNoClick == Some(CascadeNoClick(attention, scaling, t[..k]))
        && (r.Ok? ==> scores == Some(CascadeScores(attention, scaling, t))
                      && scoreNoClick == Some(CascadeNoClick(attention, scaling, t)))
        && (r.Err? ==> r.error == AssertionError && scores == old(scores))
    {
      var arr := new real[|t|](i requires 0 <= i < |t| => t[i]);
      assert arr[..] == t;
      var normalized, noClick := PositionalNormalization(arr, attention, scaling);
      scoreNoClick := Some(noClick);
      if normalized.Err? {
        return Err(normalized.error);
      }
      assert t[..|t|] == t;
      scores := Some(arr[..]);
      return Ok(());
    }

    /**
     * `choose_item` on the stored scores. Before any scoring, or after a
     * first scoring that failed in the cascade's normalization, numpy
     * cannot sum None (TypeError).
     */
    function ChooseItem(u: real): (r: Result<Option<nat>>)
      requires 0.0 <= u < 1.0
      reads this
      ensures scores.None? || scoreNoClick.None? ==> r == Err(TypeError)
      ensures scores.Some? && scoreNoClick.Some? ==> r == ChoiceOf(scores.value, scoreNoClick.value, u)
      ensures r.Ok? && r.value.Some? ==> r.value.value < |scores.value|
    {
      if scores.None? || scoreNoClick.None? then Err(TypeError)
      else ChoiceOf(scores.value, scoreNoClick.value, u)
    }
  }
}
